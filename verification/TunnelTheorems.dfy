/**
 * What the tunnel promises end to end, in every run of local agents, relay and tunnel clients, as long
 * as no stream id is reused while frames carrying it are under way.
 */
module TunnelTheorems {
  import opened Frames
  import opened Tunnel
  import opened TunnelLegs
  import opened TunnelInvariant
  import opened TunnelSteps
  import opened TunnelDeliveries
  import opened TunnelRuns
  import CM = ClientManager
  import R = Relay
  import RI = RelayInvariant
  import RR = RelayRuns
  import RT = RelayTheorems
  import S = RelayStream
  import SI = RelayStreamInvariant
  import C = TcpClient
  import A = TcpAgent

  /** Handle h is a TCP stream after this run. */
  ghost predicate Reached(cfg: R.Config, script: Script, h: nat) {
    Run(cfg, script).Some? && IsStream(After(cfg, script), h)
  }

  lemma ReachedLeg(cfg: R.Config, script: Script, h: nat)
    requires Reached(cfg, script, h)
    ensures var t := After(cfg, script);
            && LegOk(t.Str(h), t.HopAt(h), t.clientUp, t.agentUp, t.r.reg.openAgents)
            && SI.Inv(t.Str(h), RI.Surroundings(t.r.reg, cfg, t.Str(h).ident))
            && (t.Str(h).cleaned ==> Gone(t.Str(h)))
  {
    hide Inv, Run, SI.Inv, LegOk, RI.EntryOk;
    RunInv(cfg, script);
    StreamAt(After(cfg, script), cfg, h);
  }

  // ---------------------------------------------------------------------------
  // End-to-end byte streams
  // ---------------------------------------------------------------------------

  /** A log's data is what has been read of it and what is still under way. */
  lemma DataSplit(log: seq<Frame>, k: nat)
    requires k <= |log|
    ensures DataOf(log) == DataOf(Start(log, k)) + DataOf(Rest(log, k))
  {
    hide DataOf;
    DataOfConcat(log[..k], log[k..]);
    assert log == log[..k] + log[k..];
  }

  lemma PrefixTransitive(a: seq<Chunk>, b: seq<Chunk>, c: seq<Chunk>)
    requires a <= b && b <= c
    ensures a <= c
  {
  }

  lemma TowardsClient(s: S.Stream, e: S.Env, n: Near, up: bool)
    requires ClientLeg(s, n, up) && SI.Inv(s, e) && n.c.Some?
    ensures n.Rec().took.written <= s.took.accepted
    ensures !s.sock.destroyed && !n.Rec().cleaned ==>
              s.took.accepted == n.Rec().took.written + DataOf(Rest(s.sent.toClient, n.kc)) + s.sock.buffered
  {
    hide S.ClientTalk, S.FarTalk, C.Word, C.Inv, DataOf, TotalBytes, SI.LiveTalk, SI.LastTalk, SI.FarWordOk;
    DataOfPrefix(s.sent.toClient, n.kc);
    DataSplit(s.sent.toClient, n.kc);
    PrefixTransitive(DataOf(s.sent.toClient[..n.kc]), DataOf(s.sent.toClient), s.took.accepted);
    PrefixTransitive(n.Rec().took.written, DataOf(s.sent.toClient[..n.kc]), s.took.accepted);
    assert DataOf(s.sent.toClient) + s.sock.buffered + [] == DataOf(s.sent.toClient) + s.sock.buffered;
  }

  lemma FromLocalAgent(s: S.Stream, f: Far, up: bool, heard: bool)
    requires AgentLeg(s, f, up, heard) && f.a.Some?
    ensures s.took.accepted <= f.Rec().took.read
    ensures !s.sock.destroyed ==> f.Rec().took.read == s.took.accepted + DataOf(Rest(f.Rec().sent, f.ka))
  {
    hide S.FarTalk, A.Word, DataOf, AckFirst;
    DataOfPrefix(f.Rec().sent, f.ka);
    DataSplit(f.Rec().sent, f.ka);
    PrefixTransitive(s.took.accepted, DataOf(f.Rec().sent[..f.ka]), DataOf(f.Rec().sent));
  }

  /**
   * From the local application to the remote service: what the tunnel client has written is a prefix of
   * what the agent has read from its local socket; and while the stream lives, what is missing is
   * exactly what is on its way to the client, in the virtual socket's buffer, and on its way to the
   * relay, in this order.
   */
  lemma UpstreamBytes(cfg: R.Config, script: Script, h: nat)
    requires Reached(cfg, script, h) && After(cfg, script).HopAt(h).near.c.Some? && After(cfg, script).HopAt(h).far.a.Some?
    requires After(cfg, script).Str(h).ident.peer.Agent?
    ensures var t := After(cfg, script);
            var s, n, f := t.Str(h), t.HopAt(h).near, t.HopAt(h).far;
            var c, a := n.Rec(), f.Rec();
            && n.kc <= |s.sent.toClient| && f.ka <= |a.sent|
            && c.took.written <= a.took.read
            && (!s.cleaned && !s.sock.destroyed && !c.cleaned ==>
                  a.took.read == c.took.written + DataOf(Rest(s.sent.toClient, n.kc)) + s.sock.buffered + DataOf(Rest(a.sent, f.ka)))
  {
    hide Run, ClientLeg, AgentLeg, SI.InvWith, DataOf;
    ReachedLeg(cfg, script, h);
    var t := After(cfg, script);
    var s, n, f := t.Str(h), t.HopAt(h).near, t.HopAt(h).far;
    LegSizes(s, n, f, s.ident.ws in t.clientUp, s.ident.AgentWs() in t.agentUp, s.ident.AgentWs() in t.r.reg.openAgents);
    TowardsClient(s, RI.Surroundings(t.r.reg, cfg, s.ident), n, s.ident.ws in t.clientUp);
    FromLocalAgent(s, f, s.ident.AgentWs() in t.agentUp, s.ident.AgentWs() in t.r.reg.openAgents);
    PrefixTransitive(n.Rec().took.written, s.took.accepted, f.Rec().took.read);
  }

  lemma LegSizes(s: S.Stream, n: Near, f: Far, up: bool, agentUp: bool, heard: bool)
    requires ClientLeg(s, n, up)
    ensures n.kc <= |s.sent.toClient| && (n.c.Some? ==> n.kr <= |n.Rec().sent|)
    ensures AgentLeg(s, f, agentUp, heard) ==> f.kg <= |s.sent.toFar| && (f.a.Some? ==> f.ka <= |f.Rec().sent|)
  {
    hide NearIn, NearOut, FarIn, FarOut, AckFirst, C.Inv, A.Inv, S.FarTalk;
  }

  lemma FromClientEnd(s: S.Stream, e: S.Env, n: Near, up: bool)
    requires ClientLeg(s, n, up) && SI.Inv(s, e) && n.c.Some?
    ensures DataOf(s.sent.toFar) <= n.Rec().took.read
    ensures !s.sock.destroyed && (s.ident.peer.External? || e.agentOpen) ==>
              n.Rec().took.read == DataOf(s.sent.toFar) + DataOf(Rest(n.Rec().sent, n.kr))
  {
    hide S.ClientTalk, S.FarTalk, C.Word, DataOf, TotalBytes, SI.LiveTalk, SI.LastTalk, SI.FarWordOk, NearOut;
    DataOfPrefix(n.Rec().sent, n.kr);
    DataSplit(n.Rec().sent, n.kr);
    PrefixTransitive(s.took.received, DataOf(n.Rec().sent[..n.kr]), DataOf(n.Rec().sent));
    PrefixTransitive(DataOf(s.sent.toFar), s.took.received, DataOf(n.Rec().sent));
  }

  lemma ToLocalAgent(s: S.Stream, f: Far, up: bool, heard: bool)
    requires AgentLeg(s, f, up, heard) && f.a.Some?
    ensures f.Rec().took.written <= DataOf(s.sent.toFar)
    ensures !f.Rec().cleaned ==> DataOf(s.sent.toFar) == f.Rec().took.written + DataOf(Rest(s.sent.toFar, f.kg))
  {
    hide S.FarTalk, A.Word, DataOf, AckFirst, A.Inv, FarIn;
    DataOfPrefix(s.sent.toFar, f.kg);
    DataSplit(s.sent.toFar, f.kg);
    PrefixTransitive(f.Rec().took.written, DataOf(s.sent.toFar[..f.kg]), DataOf(s.sent.toFar));
  }

  /**
   * From the remote service to the local application: what the agent has written to its local socket is
   * a prefix of what the tunnel client has read; and while the stream lives and the relay can reach the
   * agent, what is missing is exactly what is on its way to the agent and on its way to the relay.
   */
  lemma DownstreamBytes(cfg: R.Config, script: Script, h: nat)
    requires Reached(cfg, script, h) && After(cfg, script).HopAt(h).near.c.Some? && After(cfg, script).HopAt(h).far.a.Some?
    requires After(cfg, script).Str(h).ident.peer.Agent?
    ensures var t := After(cfg, script);
            var s, n, f := t.Str(h), t.HopAt(h).near, t.HopAt(h).far;
            var c, a := n.Rec(), f.Rec();
            && f.kg <= |s.sent.toFar| && n.kr <= |c.sent|
            && a.took.written <= c.took.read
            && (!s.cleaned && !s.sock.destroyed && !a.cleaned && s.ident.AgentWs() in t.r.reg.openAgents ==>
                  c.took.read == a.took.written + DataOf(Rest(s.sent.toFar, f.kg)) + DataOf(Rest(c.sent, n.kr)))
  {
    hide Run, ClientLeg, AgentLeg, SI.InvWith, DataOf;
    ReachedLeg(cfg, script, h);
    var t := After(cfg, script);
    var s, n, f := t.Str(h), t.HopAt(h).near, t.HopAt(h).far;
    LegSizes(s, n, f, s.ident.ws in t.clientUp, s.ident.AgentWs() in t.agentUp, s.ident.AgentWs() in t.r.reg.openAgents);
    FromClientEnd(s, RI.Surroundings(t.r.reg, cfg, s.ident), n, s.ident.ws in t.clientUp);
    ToLocalAgent(s, f, s.ident.AgentWs() in t.agentUp, s.ident.AgentWs() in t.r.reg.openAgents);
    PrefixTransitive(f.Rec().took.written, DataOf(s.sent.toFar), n.Rec().took.read);
  }

  /** The same two promises for a connection made to the relay directly, where the far side is a real socket. */
  lemma DirectBytes(cfg: R.Config, script: Script, h: nat)
    requires Reached(cfg, script, h) && After(cfg, script).HopAt(h).near.c.Some?
    requires After(cfg, script).Str(h).ident.peer.External?
    ensures var t := After(cfg, script);
            var s, n := t.Str(h), t.HopAt(h).near;
            var c := n.Rec();
            && n.kc <= |s.sent.toClient| && n.kr <= |c.sent|
            && c.took.written <= s.took.accepted
            && DataOf(s.sent.toFar) <= c.took.read
            && (!s.cleaned && !s.sock.destroyed ==>
                  && c.took.read == DataOf(s.sent.toFar) + DataOf(Rest(c.sent, n.kr))
                  && (!c.cleaned ==> s.took.accepted == c.took.written + DataOf(Rest(s.sent.toClient, n.kc))))
  {
    hide Run, ClientLeg, AgentLeg, SI.FlowExact, SI.ReadExact, SI.FifoUp, SI.FifoDown, SI.FarWordOk, SI.LiveTalk,
         SI.LastTalk, SI.CountOk, DataOf, TotalBytes;
    ReachedLeg(cfg, script, h);
    var t := After(cfg, script);
    var s, n := t.Str(h), t.HopAt(h).near;
    LegSizes(s, n, t.HopAt(h).far, s.ident.ws in t.clientUp, false, false);
    TowardsClient(s, RI.Surroundings(t.r.reg, cfg, s.ident), n, s.ident.ws in t.clientUp);
    FromClientEnd(s, RI.Surroundings(t.r.reg, cfg, s.ident), n, s.ident.ws in t.clientUp);
    assert n.Rec().took.written + DataOf(Rest(s.sent.toClient, n.kc)) + [] == n.Rec().took.written + DataOf(Rest(s.sent.toClient, n.kc));
  }

  // ---------------------------------------------------------------------------
  // Relay and tunnel client agree, up to frames under way
  // ---------------------------------------------------------------------------

  lemma {:induction false} WordEnds(log: seq<Frame>)
    requires C.Word(log) != C.Garbled
    ensures C.Word(log).Done? ==> LastEnds(log)
  {
  }

  /** Live at the client, so live at the relay, or the relay's terminal frame is on its way. */
  lemma ClientLiveAgrees(s: S.Stream, e: S.Env, n: Near, up: bool)
    requires ClientLeg(s, n, up) && SI.Inv(s, e) && e.wsOpen && n.c.Some? && !n.Rec().cleaned && s.cleaned
    ensures n.kc < |s.sent.toClient| && LastEnds(s.sent.toClient)
  {
    hide S.ClientTalk, S.FarTalk, C.Word, DataOf, TotalBytes;
    ClientWordPrefix(n.Rec().sent, n.kr);
    assert n.Rec().sent[..|n.Rec().sent|] == n.Rec().sent;
    assert s.sent.toClient[..|s.sent.toClient|] == s.sent.toClient;
    TalkPrefix(s.sent.toClient, |s.sent.toClient|);
    RT.TalkShape(s.sent.toClient);
  }

  /** The frame the client is given next is TCP_OPEN. */
  predicate NextIsOpen(s: S.Stream, n: Near) {
    FrameAt(s.sent.toClient, n.kc).TcpOpen?
  }

  /** Live at the relay, so live at the client, or TCP_OPEN or the client's terminal frame is on its way. */
  lemma RelayLiveAgrees(s: S.Stream, e: S.Env, n: Near)
    requires ClientLeg(s, n, true) && SI.Inv(s, e) && !s.cleaned
    ensures n.c.None? ==> n.kc == 0 && NextIsOpen(s, n)
    ensures n.c.Some? && n.Rec().cleaned ==> n.kr < |n.Rec().sent| && LastEnds(n.Rec().sent)
  {
    hide S.ClientTalk, S.FarTalk, C.Word, DataOf, TotalBytes;
    RT.TalkShape(s.sent.toClient);
    TalkPrefix(s.sent.toClient, n.kc);
    if n.c.Some? && n.Rec().cleaned {
      assert s.sent.toClient[..|s.sent.toClient|] == s.sent.toClient;
      assert n.Rec().sent[..|n.Rec().sent|] == n.Rec().sent;
      WordEnds(n.Rec().sent);
    }
  }

  /**
   * While the WebSocket between them is OPEN on both sides, the tunnel client and the relay agree on
   * which streams are live, up to the frames still under way.
   */
  lemma Agreement(cfg: R.Config, script: Script, h: nat)
    requires Reached(cfg, script, h)
    requires var t := After(cfg, script); var ws := t.Str(h).ident.ws; ws in t.clientUp && ws in t.r.reg.openClients
    ensures var t := After(cfg, script);
            var s, n := t.Str(h), t.HopAt(h).near;
            && (n.c.Some? && !n.Rec().cleaned && s.cleaned ==>
                  n.kc < |s.sent.toClient| && LastEnds(s.sent.toClient))
            && (!s.cleaned && n.c.None? ==> n.kc == 0 && NextIsOpen(s, n))
            && (!s.cleaned && n.c.Some? && n.Rec().cleaned ==>
                  n.kr < |n.Rec().sent| && LastEnds(n.Rec().sent))
  {
    hide Run, ClientLeg, AgentLeg, SI.InvWith;
    ReachedLeg(cfg, script, h);
    var t := After(cfg, script);
    var s, n := t.Str(h), t.HopAt(h).near;
    var e := RI.Surroundings(t.r.reg, cfg, s.ident);
    if n.c.Some? && !n.Rec().cleaned && s.cleaned { ClientLiveAgrees(s, e, n, true); }
    if !s.cleaned { RelayLiveAgrees(s, e, n); }
  }

  /** A TCP_OPEN never overwrites a record of the client, and every later frame finds its own stream's record or none. */
  lemma OpensNeverCollide(cfg: R.Config, script: Script, h: nat)
    requires Reached(cfg, script, h) && SentToClient(After(cfg, script), h)
    ensures var t := After(cfg, script);
            var s, n, key := t.Str(h), t.HopAt(h).near, ClientKey(t.Str(h).ident);
            && (NextIsOpen(s, n) ==> key !in t.clientIds)
            && (key in t.clientIds ==> R.At(t.clientIds, key) == h)
  {
    hide Run, Inv, ClientLeg, AgentLeg, SI.InvWith;
    RunInv(cfg, script);
    var t := After(cfg, script);
    var s, n := t.Str(h), t.HopAt(h).near;
    ReachedLeg(cfg, script, h);
    ClientFindsOwn(t, cfg, h);
    if NextIsOpen(s, n) {
      NearOpens(s, RI.Surroundings(t.r.reg, cfg, s.ident), n, C.Env(s.ident.ws in t.clientUp, false, false, false), true, true);
    }
  }

  // ---------------------------------------------------------------------------
  // Routing
  // ---------------------------------------------------------------------------

  /**
   * Routing fidelity. When an agent has bound a local socket to a stream, the relay opened that stream
   * for exactly that socket's request: same request id, same port and, if the route names a tunnel, on
   * the client registered under that tunnel id.
   */
  lemma RoutingFidelity(cfg: R.Config, script: Script, h: nat)
    requires Reached(cfg, script, h) && After(cfg, script).Str(h).ident.peer.Agent?
    ensures var t := After(cfg, script); var i := t.Str(h).ident;
            && i.AgentWs() in t.agents
            && var conn := t.Conn(i.AgentWs());
               && conn.first <= i.requestId < conn.first + |conn.issued|
               && var asked := IssueAt(conn, i.requestId - conn.first);
                  && asked.port == i.serverPort
                  && (asked.target != "" ==> i.target == asked.target)
                  && i.ws in t.r.reg.tunnelOf && CM.TunnelOf(t.r.reg, i.ws) == i.target
                  && (t.HopAt(h).far.a.Some? ==> t.HopAt(h).far.sock == asked.sock)
  {
    hide Run, RI.Inv, ServedOnce, ConnsOk, RejectionsOk, StraysOk;
    RunInv(cfg, script);
    assert RepliesOk(After(cfg, script)) by { hide Inv, RepliesOk, RI.Inv; InvParts(After(cfg, script), cfg); }
  }

  /** Two streams of one agent never serve the same request. */
  lemma RequestsServedOnce(cfg: R.Config, script: Script, g: nat, h: nat)
    requires Reached(cfg, script, g) && Reached(cfg, script, h) && g < h
    requires var t := After(cfg, script);
             t.Str(g).ident.peer.Agent? && t.Str(g).ident.peer == t.Str(h).ident.peer
    ensures var t := After(cfg, script); t.Str(g).ident.requestId != t.Str(h).ident.requestId
  {
    hide Run, Inv, RepliesOk, RI.Inv;
    RunInv(cfg, script);
    var t := After(cfg, script);
    InvParts(t, cfg);
    assert SamePeer(t.r.all[g], t.r.all[h]);
  }

  /**
   * At most one connect-level reply for every TCP_CONNECT: a request that was rejected was rejected once
   * and opened no stream; one that opened a stream gets at most one reply on it, naming that request.
   */
  lemma OneReplyPerRequest(cfg: R.Config, script: Script, a: nat, k: nat)
    requires Run(cfg, script).Some? && a in After(cfg, script).agents && k < |At(After(cfg, script).r.sent.rejections, a)|
    ensures var t := After(cfg, script); var id := RejectionAt(t, a, k).requestId;
            && (forall j: nat :: j < |At(t.r.sent.rejections, a)| && j != k ==> RejectionAt(t, a, j).requestId != id)
            && Unserved(t.r.all, a, id)
  {
    hide Run, RI.Inv, LegsOk, ClientIndexed, AgentIndexed, Apart, Served, ServedOnce, ConnsOk, StraysOk;
    RunInv(cfg, script);
    var t := After(cfg, script);
    Clauses(t, cfg);
    assert RejectedOk(t.r.all, At(t.r.sent.rejections, a), t.Conn(a), a);
  }

  lemma {:induction false} AckedHasAck(log: seq<Frame>)
    requires S.FarTalk(log).FarWord? && S.FarTalk(log).reply == S.Acknowledged
    ensures exists j: nat :: FrameAt(log, j).TcpConnectAck?
  {
    var n := |log| - 1;
    assert FrameAt(log, n) == log[n];
    if !log[n].TcpConnectAck? {
      AckedHasAck(log[..n]);
      var j: nat :| FrameAt(log[..n], j).TcpConnectAck?;
      assert FrameAt(log, j) == FrameAt(log[..n], j);
    }
  }

  /**
   * Deferred open, end to end: in the relay's log to an agent an acknowledgement comes before any data,
   * there is at most one connect-level reply, and it names the stream's own request; and until the
   * agent has bound a socket, the relay takes nothing in from it.
   */
  lemma AckBeforeData(cfg: R.Config, script: Script, h: nat, k: nat)
    requires Reached(cfg, script, h) && After(cfg, script).Str(h).ident.peer.Agent?
    requires k < |After(cfg, script).Str(h).sent.toFar|
    ensures var t := After(cfg, script); var s, log := t.Str(h), t.Str(h).sent.toFar;
            && (FrameAt(log, k).TcpData? ==> exists j: nat :: j < k && FrameAt(log, j).TcpConnectAck?)
            && (Replies(FrameAt(log, k)) ==> ReplyOf(FrameAt(log, k)) == S.ReplyTo(s.ident) && forall j: nat :: j != k ==> !Replies(FrameAt(log, j)))
            && (t.HopAt(h).far.a.None? ==> s.took.accepted == [])
  {
    hide Run, ClientLeg, S.FarTalk, S.ClientTalk, DataOf, TotalBytes, SI.LiveTalk, SI.LastTalk, FarIn, FarOut;
    ReachedLeg(cfg, script, h);
    var log := After(cfg, script).Str(h).sent.toFar;
    RT.FarShape(log);
    if log[k].TcpData? {
      AckedHasAck(log[..k]);
      var j: nat :| FrameAt(log[..k], j).TcpConnectAck?;
      assert FrameAt(log, j) == FrameAt(log[..k], j);
    }
  }

  // ---------------------------------------------------------------------------
  // The relay's books, with the repository's own clients
  // ---------------------------------------------------------------------------

  lemma NotLost(s: S.Stream, hop: Hop, clientUp: set<nat>, agentUp: set<nat>, heard: set<nat>, e: S.Env)
    requires LegOk(s, hop, clientUp, agentUp, heard) && SI.Inv(s, e)
    ensures s.cleanups == if s.cleaned then 1 else 0
  {
    hide AgentLeg, SI.Core, SI.LiveTalk, SI.LastTalk, C.Inv, NearIn, NearOut;
  }

  ghost predicate AllCounted(all: seq<R.Entry>) {
    forall h :: 0 <= h < |all| && all[h].Tcp? ==> all[h].t.cleanups == if all[h].t.cleaned then 1 else 0
  }

  /** With the repository's own clients at the ends, onCleanup has run exactly once for every stream that is gone. */
  lemma NoneLost(cfg: R.Config, script: Script)
    requires Run(cfg, script).Some?
    ensures AllCounted(After(cfg, script).r.all)
  {
    hide Run, Inv, LegOk, SI.Inv;
    RunInv(cfg, script);
    var t := After(cfg, script);
    assert |t.hops| == |t.r.all| by { hide RepliesOk; InvParts(t, cfg); }
    forall h | 0 <= h < |t.r.all| && t.r.all[h].Tcp?
      ensures t.Str(h).cleanups == if t.Str(h).cleaned then 1 else 0
    {
      StreamAt(t, cfg, h);
      NotLost(t.Str(h), t.HopAt(h), t.clientUp, t.agentUp, t.r.reg.openAgents, RI.Surroundings(t.r.reg, cfg, t.Str(h).ident));
    }
  }

  /**
   * With the repository's own clients and agents at the ends, the clients' idle timeout off, nothing is ever
   * lost from the books: every port counter is the number of live streams of its port.
   */
  lemma BooksExact(cfg: R.Config, script: Script, port: int)
    requires Run(cfg, script).Some?
    ensures var r := After(cfg, script).r;
            && R.At(r.books.agentCount, port) == RR.LiveCount(r.all, port, true)
            && R.At(r.books.directCount, port) == RR.LiveCount(r.all, port, false)
  {
    hide Run, Inv, SI.Inv, RI.Registered, RI.Owned, RI.NoOrphans, RI.Known, RI.Bounded, RI.EntriesOk, CM.Indexed,
         RepliesOk, ServedOnce;
    RunInv(cfg, script);
    var t := After(cfg, script);
    InvParts(t, cfg);
    RI.Clauses(t.r, cfg, {});
    NoneLost(cfg, script);
    RR.OwingVersusLive(t.r.all, port, true);
    RR.OwingVersusLive(t.r.all, port, false);
  }

  /**
   * Under the same conditions an agent's set holds exactly the ids of its live streams, and cleanupAgent
   * ends no stream but the agent's own: in every run, with no further hypothesis.
   */
  lemma OwnedSetsExact(cfg: R.Config, script: Script, a: nat, rd: R.Readings)
    requires Run(cfg, script).Some? && a in After(cfg, script).r.books.agentStreams
    ensures RR.SetExact(After(cfg, script).r, a) && RR.EndsOnlyOwn(After(cfg, script).r, cfg, rd, a)
  {
    hide Run, Inv, RI.InvBut, RI.Newest, RepliesOk, ServedOnce, RR.EndsOnlyOwn;
    RunInv(cfg, script);
    var r := After(cfg, script).r;
    InvParts(After(cfg, script), cfg);
    NoneLost(cfg, script);
    forall id ensures id in R.OwnedBy(r.books, a) <==> RR.LiveUnder(r, id, a) {
      RR.OwnedHasNewest(r, cfg, a, id);
      if h: nat :| RI.Newest(r.all, h, a, id) {
        RR.NewestIn(r.all, h, a, id);
        RR.NewestLost(r, cfg, a, h, id);
      }
    }
    assert !RR.SetStale(r, a);
    RR.AgentCleanupIff(r, cfg, rd, a);
  }

  /** A stray abort under way never names a stream of that agent that is still live at the relay. */
  lemma StraysAreLate(cfg: R.Config, script: Script, a: nat, k: nat, h: nat)
    requires Reached(cfg, script, h) && a in After(cfg, script).agents && OfAgent(R.RecordAt(After(cfg, script).r.all, h), a)
    requires var t := After(cfg, script);
             t.Conn(a).aborted <= k < |At(t.r.sent.strays, a)| && t.Str(h).ident.id == StrayAt(t, a, k)
    ensures After(cfg, script).Str(h).cleaned
  {
    hide Run, RI.Inv, LegsOk, ClientIndexed, AgentIndexed, Apart, Served, ServedOnce, ConnsOk, RejectionsOk;
    RunInv(cfg, script);
    var t := After(cfg, script);
    Clauses(t, cfg);
    assert StrayedOk(t.r.all, At(t.r.sent.strays, a), t.Conn(a), a);
  }
}
