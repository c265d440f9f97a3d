/**
 * What has arrived when a tunnelled stream ends in the ordinary way: all of the data in one direction, all
 * but what the relay was holding back in the other.
 */
module TunnelEndings {
  import opened Frames
  import opened Tunnel
  import opened TunnelLegs
  import opened TunnelInvariant
  import opened TunnelSteps
  import TD = TunnelDeliveries
  import opened TunnelRuns
  import opened TunnelTheorems
  import R = Relay
  import RI = RelayInvariant
  import RM = RelayMoves
  import RR = RelayRuns
  import RT = RelayTheorems
  import RS = RelayClosings
  import S = RelayStream
  import SI = RelayStreamInvariant
  import SE = RelayStreamEffects
  import C = TcpClient
  import A = TcpAgent

  // ---------------------------------------------------------------------------
  // From the local application to the remote service
  // ---------------------------------------------------------------------------

  /** Both ends have heard of the ending: what the client lacks is what is left in the relay's buffer. */
  lemma EndedTowardsClient(s: S.Stream, e: S.Env, n: Near, up: bool)
    requires ClientLeg(s, n, up) && SI.Inv(s, e) && n.c.Some? && n.Rec().took.serverEnded && s.ident.peer.Agent? && s.took.farEnded
    ensures s.took.accepted == n.Rec().took.written + s.sock.buffered
  {
    hide S.ClientTalk, S.FarTalk, C.Word, C.Inv, DataOf, TotalBytes, NearIn;
    TalkPrefix(s.sent.toClient, n.kc);
    assert s.sent.toClient[..|s.sent.toClient|] == s.sent.toClient;
  }

  lemma EndedFromAgent(s: S.Stream, f: Far, up: bool, heard: bool)
    requires AgentLeg(s, f, up, heard) && s.took.farEnded
    ensures f.a.Some? && s.took.accepted == f.Rec().took.read
  {
    hide S.FarTalk, A.Word, DataOf, AckFirst, FarOut;
    AgentWordPrefix(f.Rec().sent, f.ka);
    assert f.Rec().sent[..|f.Rec().sent|] == f.Rec().sent;
  }

  /** In every run: once the agent has ended the stream and the client has heard so, exactly the buffer is missing. */
  lemma EndedUpstream(cfg: R.Config, script: Script, h: nat)
    requires Reached(cfg, script, h) && After(cfg, script).Str(h).ident.peer.Agent? && After(cfg, script).Str(h).took.farEnded
    requires var n := After(cfg, script).HopAt(h).near; n.c.Some? && n.Rec().took.serverEnded
    ensures var t := After(cfg, script);
            && t.HopAt(h).far.a.Some?
            && t.HopAt(h).far.Rec().took.read == t.HopAt(h).near.Rec().took.written + t.Str(h).sock.buffered
  {
    hide Run, ClientLeg, AgentLeg, SI.InvWith, DataOf;
    ReachedLeg(cfg, script, h);
    var t := After(cfg, script);
    var s, n, f := t.Str(h), t.HopAt(h).near, t.HopAt(h).far;
    EndedTowardsClient(s, RI.Surroundings(t.r.reg, cfg, s.ident), n, s.ident.ws in t.clientUp);
    EndedFromAgent(s, f, s.ident.AgentWs() in t.agentUp, s.ident.AgentWs() in t.r.reg.openAgents);
  }

  // ---------------------------------------------------------------------------
  // The buffer of a stream that is gone
  // ---------------------------------------------------------------------------

  lemma ConnectIsStep(r: R.Relay, cfg: R.Config, rd: R.Readings, a: nat, q: ConnectRequest)
    requires a in r.books.agentStreams
    ensures R.FromAgent(r, cfg, rd, a, R.NO_STREAM, TcpConnect(q)) == R.Connect(r, cfg, rd, a, q)
  {
    hide R.Connect;
  }

  predicate AtRelay(ev: Event) {
    ev.RelayEvent? || ev.AgentJoins? || ev.AgentRequest? || ev.ClientFrame? || ev.AgentFrame?
  }

  lemma ElsewhereKeepsRelay(t: Tunnel, cfg: R.Config, rd: R.Readings, lv: Levels, ev: Event)
    requires Enabled(t, cfg, rd, lv, ev) && !AtRelay(ev)
    ensures Step(t, cfg, rd, lv, ev).r == t.r
  {
    hide R.Step, R.Connect, R.FromClient, R.FromAgent, C.OnLocal, A.OnLocal, C.FromServer, A.FromServer, C.Open,
         S.Possible, C.Possible, A.Possible, Own, OpensReusable, Answered, Rejected, Issued, A.RemoveSock, Routable,
         StrayInTurn;
  }

  /** The step of the relay that a step of the tunnel is, if it is one. */
  function RelayEventOf(t: Tunnel, ev: Event): Option<R.Event> {
    match ev
    case RelayEvent(w) => Some(w)
    case AgentJoins(a, _) => Some(R.AgentJoins(a))
    case AgentRequest(a) => Some(R.AgentSends(a, R.NO_STREAM, TcpConnect(NextRequest(t, a))))
    case ClientFrame(h) => Some(R.ClientSends(t.Str(h).ident.ws, t.Str(h).ident.id, NextFromClient(t, h)))
    case AgentFrame(h) => Some(R.AgentSends(t.Str(h).ident.AgentWs(), t.Str(h).ident.id, NextFromAgent(t, h)))
    case _ => None
  }

  /** Every step of the tunnel is a step of the relay, or leaves the relay alone. */
  lemma RelayStepOf(t: Tunnel, cfg: R.Config, rd: R.Readings, lv: Levels, ev: Event)
    requires Enabled(t, cfg, rd, lv, ev)
    ensures RelayEventOf(t, ev).None? ==> Step(t, cfg, rd, lv, ev).r == t.r
    ensures forall w :: RelayEventOf(t, ev) == Some(w) ==> R.Enabled(t.r, cfg, rd, w) && Step(t, cfg, rd, lv, ev).r == R.Step(t.r, cfg, rd, w)
  {
    hide R.Connect, R.FromClient, R.FromAgent, R.AbortAll, R.AcceptDirect, R.AcceptWeb, R.Settle, S.OnLocal, C.OnLocal,
         A.OnLocal, S.Possible, C.Possible, A.Possible, Own, OpensReusable, Rejected, Issued, A.RemoveSock, Routable,
         ClientReads, AgentReads, AgentReadsStray, PutClient, PutAgent, StrayInTurn;
    if !AtRelay(ev) { ElsewhereKeepsRelay(t, cfg, rd, lv, ev); }
    if ev.AgentRequest? { ConnectIsStep(t.r, cfg, rd, ev.a, NextRequest(t, ev.a)); }
  }

  /** Record h is a TCP stream that is gone. */
  predicate GoneIn(all: seq<R.Entry>, h: nat) {
    R.IsTcp(all, h) && R.TcpAt(all, h).cleaned
  }

  /** To the relay's record of a stream that is gone, nothing happens any more that matters here. */
  lemma GoneStays(r: R.Relay, cfg: R.Config, rd: R.Readings, v: R.Event, h: nat)
    requires RI.Inv(r, cfg) && R.Enabled(r, cfg, rd, v) && GoneIn(r.all, h)
    ensures var all' := R.Step(r, cfg, rd, v).all; GoneIn(all', h) && SE.Unprompted(R.TcpAt(r.all, h), R.TcpAt(all', h))
  {
    hide R.Step, SI.Inv, S.FromClient, S.FromAgent, S.OnLocal, S.Abort, S.Possible, SE.FarControl;
    var s := r.all[h].t;
    var e := R.EnvOf(r, cfg, rd, s.ident);
    RM.StepMoved(r, cfg, rd, v, h);
    RI.EntryAt(r, cfg, h);
    RI.TcpReady(r, cfg, rd, s);
    RM.RegisteredOf(r, cfg);
    RR.FromItsOwnLive(r, v, h);
    RM.AbortedGone(r, cfg, rd, r.all[h], false);
    RM.AbortedGone(r, cfg, rd, r.all[h], true);
    UnpromptedSelf(s);
    match v
    case StreamEvent(g, l) => if g == h { SE.OnLocalUnprompted(s, e, l); }
    case _ =>
  }

  lemma UnpromptedSelf(s: S.Stream)
    ensures SE.Unprompted(s, s)
  {
  }

  /** Handle h is, after this script, a stream that is gone at the relay. */
  ghost predicate GoneAt(cfg: R.Config, script: Script, h: nat) {
    Run(cfg, script).Some? && GoneIn(After(cfg, script).r.all, h)
  }

  lemma GoneStep(t: Tunnel, cfg: R.Config, rd: R.Readings, lv: Levels, ev: Event, h: nat)
    requires Inv(t, cfg) && Enabled(t, cfg, rd, lv, ev) && GoneIn(t.r.all, h)
    ensures var t' := Step(t, cfg, rd, lv, ev); GoneIn(t'.r.all, h) && SE.Unprompted(t.Str(h), t'.Str(h))
  {
    hide Step, Enabled, R.Step, R.Enabled, RI.InvBut, LegsOk, ClientIndexed, AgentIndexed, Apart, Served, ServedOnce,
         ConnsOk, RejectionsOk, StraysOk, SE.Unprompted;
    Clauses(t, cfg);
    var v := RelayEventOf(t, ev);
    RelayStepOf(t, cfg, rd, lv, ev);
    UnpromptedSelf(t.Str(h));
    if v.Some? { GoneStays(t.r, cfg, rd, v.value, h); }
  }

  /** Once a stream is gone, its record keeps its buffer and what it has taken in, for the rest of every run. */
  lemma {:induction false} GoneIsFrozen(cfg: R.Config, script: Script, k: nat, h: nat)
    requires Run(cfg, script).Some? && GoneAt(cfg, Prefix(script, k), h)
    ensures GoneAt(cfg, script, h)
    ensures var was, now := After(cfg, Prefix(script, k)).Str(h), After(cfg, script).Str(h);
            now.ident == was.ident && now.sock.buffered == was.sock.buffered && (was.took.farEnded ==> now.took.farEnded)
    decreases |script|
  {
    hide Step, Enabled, SE.FarControl;
    if k >= |script| {
      assert Prefix(script, k) == script;
    } else {
      var n := |script| - 1;
      assert Prefix(script[..n], k) == Prefix(script, k);
      GoneIsFrozen(cfg, script[..n], k, h);
      RunInv(cfg, script[..n]);
      GoneStep(After(cfg, script[..n]), cfg, script[n].0, script[n].1, script[n].2, h);
    }
  }

  /** Step k of a script is possible after the steps before it, and leads on. */
  ghost predicate LeadsOn(cfg: R.Config, script: Script, k: nat) {
    k < |script| && Run(cfg, script[..k]).Some?
    && var t := After(cfg, script[..k]);
       && Enabled(t, cfg, script[k].0, script[k].1, script[k].2)
       && Run(cfg, script[..k + 1]) == Some(Step(t, cfg, script[k].0, script[k].1, script[k].2))
  }

  lemma {:induction false} RunPrefix(cfg: R.Config, script: Script, k: nat)
    requires k < |script| && Run(cfg, script).Some?
    ensures LeadsOn(cfg, script, k)
  {
    hide Step, Enabled;
    var n := |script| - 1;
    if k < n {
      RunPrefix(cfg, script[..n], k);
      assert script[..n][..k] == script[..k] && script[..n][..k + 1] == script[..k + 1];
    } else {
      assert script[..k + 1] == script;
    }
  }

  /** The agent's next frame on stream h ends it, and the relay's virtual socket is still there. */
  predicate AboutToEnd(t: Tunnel, h: nat) {
    && IsStream(t, h) && t.HopAt(h).far.a.Some? && t.HopAt(h).far.ka < |t.HopAt(h).far.Rec().sent|
    && Terminal(NextFromAgent(t, h))
    && t.Str(h).ident.peer.Agent? && !t.Str(h).cleaned && !t.Str(h).sock.destroyed
  }

  lemma AgentEnds(s: S.Stream, e: S.Env, f: Frame)
    requires SI.Inv(s, e) && !s.cleaned && !s.sock.destroyed && !s.awaitingClientAck && s.ident.peer.Agent? && Terminal(f)
    ensures var u := S.FromAgent(s, e, f); u.cleaned && u.took.farEnded && u.ident == s.ident && u.sock.buffered == s.sock.buffered
  {
    hide S.ClientTalk, S.FarTalk, DataOf, SI.InvWith, S.SameInputs;
    SI.FromAgentInv(s, e, f);
  }

  /** The step that delivers the ending frame leaves the buffer as it finds it, for good. */
  lemma EndingStep(t: Tunnel, cfg: R.Config, rd: R.Readings, h: nat)
    requires Inv(t, cfg) && AboutToEnd(t, h)
    ensures var r' := RelayReadsAgent(t, cfg, rd, h).r;
            && GoneIn(r'.all, h)
            && var s, s' := t.Str(h), R.TcpAt(r'.all, h); s'.took.farEnded && s'.ident == s.ident && s'.sock.buffered == s.sock.buffered
  {
    hide Inv, S.FromAgent, R.FromAgent, SI.InvWith, ClientLeg, LegOk;
    TD.AgentFrameMoves(t, cfg, rd, h);
    MovesSameSize(t.r.all, RelayReadsAgent(t, cfg, rd, h).r.all, t.hops, RelayReadsAgent(t, cfg, rd, h).hops, h);
    BoundIsAcked(t, cfg, h);
    StreamAt(t, cfg, h);
    RI.TcpReady(t.r, cfg, rd, t.Str(h));
    AgentEnds(t.Str(h), R.EnvOf(t.r, cfg, rd, t.Str(h).ident), NextFromAgent(t, h));
  }

  lemma BoundIsAcked(t: Tunnel, cfg: R.Config, h: nat)
    requires Inv(t, cfg) && IsStream(t, h) && t.Str(h).ident.peer.Agent? && t.HopAt(h).far.a.Some?
    ensures !t.Str(h).awaitingClientAck
  {
    hide Inv, SI.Inv, ClientLeg, FarIn, FarOut, AckFirst, S.FarTalk, A.Inv, RI.EntryOk;
    StreamAt(t, cfg, h);
  }

  /**
   * End of stream, from the local application to the remote service. Say the agent's TCP_CLOSE or TCP_ABORT
   * reaches a stream that lives at the relay, and later the tunnel client has taken the relay's notice of it.
   * Then what the client has written is what the agent has read, short of exactly what the virtual socket
   * was holding back when the frame arrived: it is all there if and only if the buffer was empty then.
   */
  lemma UpstreamCompleteIff(cfg: R.Config, script: Script, k: nat, h: nat)
    requires EventAt(script, k) == Some(AgentFrame(h)) && AboutToEnd(After(cfg, Prefix(script, k)), h)
    requires Reached(cfg, script, h) && After(cfg, script).HopAt(h).near.c.Some? && After(cfg, script).HopAt(h).near.Rec().took.serverEnded
    ensures var held := After(cfg, Prefix(script, k)).Str(h).sock.buffered;
            var hop := After(cfg, script).HopAt(h);
            && hop.far.a.Some?
            && hop.far.Rec().took.read == hop.near.Rec().took.written + held
            && (hop.near.Rec().took.written == hop.far.Rec().took.read <==> held == [])
  {
    hide Run, Inv, AboutToEnd, RelayReadsAgent;
    RunPrefix(cfg, script, k);
    RunInv(cfg, script[..k]);
    var t := After(cfg, script[..k]);
    EndingStep(t, cfg, script[k].0, h);
    IsRead(t, cfg, script[k].0, script[k].1, h);
    GoneIsFrozen(cfg, script, k + 1, h);
    AboutToEndStream(t, h);
    EndedUpstream(cfg, script, h);
  }

  lemma IsRead(t: Tunnel, cfg: R.Config, rd: R.Readings, lv: Levels, h: nat)
    requires Enabled(t, cfg, rd, lv, AgentFrame(h))
    ensures Step(t, cfg, rd, lv, AgentFrame(h)) == RelayReadsAgent(t, cfg, rd, h)
  {
    hide R.FromAgent;
  }

  lemma AboutToEndStream(t: Tunnel, h: nat)
    requires AboutToEnd(t, h)
    ensures IsStream(t, h) && t.Str(h).ident.peer.Agent?
  {
  }

  // ---------------------------------------------------------------------------
  // Every TCP_CLOSE told to a client
  // ---------------------------------------------------------------------------

  lemma StepExplained(t: Tunnel, cfg: R.Config, rd: R.Readings, lv: Levels, ev: Event)
    requires Inv(t, cfg) && Enabled(t, cfg, rd, lv, ev) && RS.AllExplained(t.r.all)
    ensures RS.AllExplained(Step(t, cfg, rd, lv, ev).r.all)
  {
    hide Step, Enabled, R.Step, R.Enabled, RI.InvBut, LegsOk, ClientIndexed, AgentIndexed, Apart, Served, ServedOnce,
         ConnsOk, RejectionsOk, StraysOk, RS.AllExplained;
    Clauses(t, cfg);
    var v := RelayEventOf(t, ev);
    RelayStepOf(t, cfg, rd, lv, ev);
    if v.Some? { RS.StepExplained(t.r, cfg, rd, v.value); }
  }

  lemma {:induction false} RunExplained(cfg: R.Config, script: Script)
    requires Run(cfg, script).Some?
    ensures RS.AllExplained(After(cfg, script).r.all)
  {
    hide Inv, Step, Enabled, RS.Explained;
    if |script| > 0 {
      var n := |script| - 1;
      RunInv(cfg, script[..n]);
      RunExplained(cfg, script[..n]);
      StepExplained(After(cfg, script[..n]), cfg, script[n].0, script[n].1, script[n].2);
    }
  }

  /** TCP_CLOSE is in a well-formed word to the client exactly if the word ends with it. */
  lemma {:induction false} TalkCloses(log: seq<Frame>)
    requires S.ClientTalk(log) != S.Malformed
    ensures TcpClose in log <==> S.ClientTalk(log) == S.Ended(true)
  {
    if |log| > 0 {
      var before := log[..|log| - 1];
      TalkCloses(before);
      assert log == before + [log[|log| - 1]];
    }
  }

  /** What the client has written once it has taken the relay's terminal frame: all that was forwarded. */
  lemma EndedAtClient(s: S.Stream, e: S.Env, n: Near, up: bool)
    requires ClientLeg(s, n, up) && SI.Inv(s, e) && n.c.Some? && n.Rec().took.serverEnded
    ensures n.Rec().took.written == DataOf(s.sent.toClient) && S.ClientTalk(s.sent.toClient).Ended?
  {
    hide S.ClientTalk, S.FarTalk, C.Word, C.Inv, DataOf, TotalBytes, NearIn;
    TalkPrefix(s.sent.toClient, n.kc);
    assert s.sent.toClient[..|s.sent.toClient|] == s.sent.toClient;
  }

  /** If the agent did not end it, some chunk it has read is missing. */
  lemma ShortOfAgent(s: S.Stream, f: Far, up: bool, heard: bool)
    requires AgentLeg(s, f, up, heard) && RS.Short(s)
    ensures f.a.Some? && |DataOf(s.sent.toClient)| < |f.Rec().took.read|
  {
    hide S.FarTalk, A.Word, DataOf, AckFirst, FarOut;
    if f.a.Some? {
      DataOfPrefix(f.Rec().sent, f.ka);
      PrefixTransitive(s.took.accepted, DataOf(f.Rec().sent[..f.ka]), DataOf(f.Rec().sent));
    }
  }

  /**
   * End of stream, for every TCP_CLOSE told to the client of an agent's stream: once the client has taken it,
   * it has written all that the agent has read if and only if the TCP_CLOSE answers the agent's own ending
   * and nothing was held back then. Otherwise the virtual socket had overflowed, or its buffer was dropped.
   */
  lemma ClosedCompleteIff(cfg: R.Config, script: Script, h: nat)
    requires Reached(cfg, script, h) && After(cfg, script).Str(h).ident.peer.Agent?
    requires TcpClose in After(cfg, script).Str(h).sent.toClient
    requires var n := After(cfg, script).HopAt(h).near; n.c.Some? && n.Rec().took.serverEnded
    ensures var t := After(cfg, script); var s, hop := t.Str(h), t.HopAt(h);
            && hop.far.a.Some?
            && (hop.near.Rec().took.written == hop.far.Rec().took.read <==> s.took.farEnded && s.sock.buffered == [])
  {
    hide Run, ClientLeg, AgentLeg, SI.InvWith, DataOf, S.ClientTalk, RS.Short;
    ReachedLeg(cfg, script, h);
    RunExplained(cfg, script);
    var t := After(cfg, script);
    var s, n, f := t.Str(h), t.HopAt(h).near, t.HopAt(h).far;
    EndedAtClient(s, RI.Surroundings(t.r.reg, cfg, s.ident), n, s.ident.ws in t.clientUp);
    TalkCloses(s.sent.toClient);
    if s.took.farEnded {
      EndedUpstream(cfg, script, h);
    } else {
      ShortOfAgent(s, f, s.ident.AgentWs() in t.agentUp, s.ident.AgentWs() in t.r.reg.openAgents);
    }
  }

  /**
   * End of stream for a connection made to the relay directly: when the client is told of the ending, by
   * TCP_CLOSE or by TCP_ABORT, everything read from the connection has been forwarded before, and the client
   * has written all of it once it has taken that frame.
   */
  lemma DirectComplete(cfg: R.Config, script: Script, h: nat)
    requires Reached(cfg, script, h) && After(cfg, script).Str(h).ident.peer.External?
    ensures var t := After(cfg, script); var s, n := t.Str(h), t.HopAt(h).near;
            && (LastEnds(s.sent.toClient) ==> DataOf(s.sent.toClient) == s.took.accepted)
            && (n.c.Some? && n.Rec().took.serverEnded ==> n.Rec().took.written == s.took.accepted)
  {
    hide Run, ClientLeg, SI.Core, DataOf, S.ClientTalk;
    ReachedLeg(cfg, script, h);
    var t := After(cfg, script);
    var s, n := t.Str(h), t.HopAt(h).near;
    RT.TalkShape(s.sent.toClient);
    if n.c.Some? && n.Rec().took.serverEnded {
      EndedAtClient(s, RI.Surroundings(t.r.reg, cfg, s.ident), n, s.ident.ws in t.clientUp);
    }
  }

  // ---------------------------------------------------------------------------
  // From the remote service to the local application
  // ---------------------------------------------------------------------------

  /** Nothing follows the terminal frame but control frames. */
  lemma {:induction false} EndedHasAll(log: seq<Frame>, k: nat)
    requires k <= |log| && S.FarTalk(log).FarWord? && S.FarTalk(log[..k]).FarWord? && S.FarTalk(log[..k]).ended
    ensures DataOf(log[..k]) == DataOf(log)
  {
    hide S.FarTalk, DataOf;
    if k == |log| {
      assert log[..k] == log;
    } else {
      var n := |log| - 1;
      assert log[..n][..k] == log[..k] && log[..n + 1] == log;
      FarPrefix(log, n);
      FarNext(log, n);
      FarPrefix(log[..n], k);
      EndedHasAll(log[..n], k);
      DataNext(log, n);
    }
  }

  lemma ClosedTowardsFar(s: S.Stream, e: S.Env, n: Near, up: bool)
    requires ClientLeg(s, n, up) && SI.Inv(s, e) && Closed(s.sent.toFar)
    ensures n.c.Some? && DataOf(s.sent.toFar) == n.Rec().took.read && C.Word(n.Rec().sent).Done?
  {
    hide S.ClientTalk, S.FarTalk, C.Word, DataOf, TotalBytes, NearOut;
    ClosedByClient(s, e);
    ClientWordPrefix(n.Rec().sent, n.kr);
    assert n.Rec().sent[..|n.Rec().sent|] == n.Rec().sent;
  }

  lemma EndedAtAgent(s: S.Stream, e: S.Env, f: Far, up: bool, heard: bool)
    requires AgentLeg(s, f, up, heard) && SI.Inv(s, e) && f.a.Some? && f.Rec().took.serverEnded && Closed(s.sent.toFar)
    ensures f.Rec().took.written == DataOf(s.sent.toFar)
  {
    hide S.ClientTalk, S.FarTalk, A.Word, A.Inv, DataOf, TotalBytes, FarIn, AckFirst;
    if f.kg == |s.sent.toFar| {
      assert s.sent.toFar[..f.kg] == s.sent.toFar;
    } else {
      EndedHasAll(s.sent.toFar, f.kg);
    }
  }

  /**
   * End of stream, from the remote service to the local application: if the relay passed a TCP_CLOSE on to
   * the agent, it was the tunnel client's own ending, everything the client has read went before it, and the
   * agent has written all of it once it has heard of the ending.
   */
  lemma DownstreamComplete(cfg: R.Config, script: Script, h: nat)
    requires Reached(cfg, script, h) && After(cfg, script).Str(h).ident.peer.Agent?
    requires TcpClose in After(cfg, script).Str(h).sent.toFar
    ensures var t := After(cfg, script); var s, hop := t.Str(h), t.HopAt(h);
            && hop.near.c.Some? && s.took.clientEnded && C.Word(hop.near.Rec().sent).Done?
            && DataOf(s.sent.toFar) == hop.near.Rec().took.read
            && (hop.far.a.Some? && hop.far.Rec().took.serverEnded ==> hop.far.Rec().took.written == hop.near.Rec().took.read)
  {
    hide Run, ClientLeg, AgentLeg, SI.InvWith, DataOf, S.FarTalk, C.Word;
    ReachedLeg(cfg, script, h);
    var t := After(cfg, script);
    var s, hop := t.Str(h), t.HopAt(h);
    var e := RI.Surroundings(t.r.reg, cfg, s.ident);
    FarWell(s, e);
    RT.FarCloses(s.sent.toFar);
    ClosedByClient(s, e);
    ClosedTowardsFar(s, e, hop.near, s.ident.ws in t.clientUp);
    if hop.far.a.Some? && hop.far.Rec().took.serverEnded {
      EndedAtAgent(s, e, hop.far, s.ident.AgentWs() in t.agentUp, s.ident.AgentWs() in t.r.reg.openAgents);
    }
  }

  lemma FarWell(s: S.Stream, e: S.Env)
    requires SI.Inv(s, e)
    ensures S.FarTalk(s.sent.toFar).FarWord?
  {
    hide S.FarTalk, S.ClientTalk, DataOf, TotalBytes;
  }

  /** The relay passes a client's TCP_CLOSE on exactly when the virtual socket lives and its agent can be reached. */
  lemma ClosePassedOn(s: S.Stream, e: S.Env)
    requires SI.Inv(s, e) && !s.cleaned && s.ident.peer.Agent?
    ensures S.FromClient(s, e, TcpClose).sent.toFar == s.sent.toFar + if !s.sock.destroyed && e.agentOpen then [TcpClose] else []
  {
    hide S.ClientTalk, S.FarTalk, DataOf, TotalBytes;
  }
}
