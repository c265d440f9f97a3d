/**
 * Why a tunnelled stream ended, as its two ends are told: a TCP_CLOSE on the wire stands for a connection that was
 * closed in order at the other end, a TCP_ABORT of an end for one that failed there or was never made.
 */
module TunnelCauses {
  import opened Frames
  import opened Tunnel
  import opened TunnelLegs
  import opened TunnelInvariant
  import opened TunnelSteps
  import TD = TunnelDeliveries
  import opened TunnelRuns
  import opened TunnelTheorems
  import TE = TunnelEndings
  import R = Relay
  import RI = RelayInvariant
  import RM = RelayMoves
  import RA = RelayAnswers
  import RC = RelayControl
  import RH = RelayHistory
  import RR = RelayRuns
  import RS = RelayClosings
  import RT = RelayTheorems
  import S = RelayStream
  import SI = RelayStreamInvariant
  import SE = RelayStreamEffects
  import C = TcpClient
  import CA = TcpClientAnswers
  import A = TcpAgent
  import AA = TcpAgentAnswers

  // ---------------------------------------------------------------------------
  // What the ends of a stream have said
  // ---------------------------------------------------------------------------

  /** What the client has sent on stream h, and what the agent has. */
  function Said(t: Tunnel, h: nat): seq<Frame> {
    if t.HopAt(h).near.c.Some? then t.HopAt(h).near.Rec().sent else []
  }

  function AgentSaid(t: Tunnel, h: nat): seq<Frame> {
    if t.HopAt(h).far.a.Some? then t.HopAt(h).far.Rec().sent else []
  }

  /** An event of the local service's socket befalls a live stream of a client whose WebSocket is OPEN. */
  predicate Befalls(t: Tunnel, ev: Event, h: nat, l: C.Local) {
    && ev == ClientLocal(h, l) && t.HopAt(h).near.c.Some? && !t.HopAt(h).near.Rec().cleaned
    && t.Str(h).ident.ws in t.clientUp
  }

  /** The service closed the connection in order. */
  predicate Closes(t: Tunnel, ev: Event, h: nat) {
    Befalls(t, ev, h, C.LocalClose)
  }

  /** The connection failed, could not be made in time, or was refused by the client itself. */
  predicate Fails(t: Tunnel, ev: Event, h: nat) {
    || Befalls(t, ev, h, C.LocalError)
    || (Befalls(t, ev, h, C.Timeout) && !t.HopAt(h).near.Rec().sock.connected)
    || Refuses(t, ev, h)
  }

  predicate Refuses(t: Tunnel, ev: Event, h: nat) {
    match ev
    case ToClient(g, admit) =>
      g == h && IsOpening(NextToClient(t, h)) && !(WellFormed(NextToClient(t, h)) && admit) && t.Str(h).ident.ws in t.clientUp
    case _ => false
  }

  predicate IsOpening(f: Frame) {
    f.TcpOpen?
  }

  predicate WellFormed(f: Frame) {
    f.TcpOpen? && f.wellFormed
  }

  /** The local application's connection at the agent closed in order, or failed, while the agent's WebSocket was OPEN. */
  predicate AppCloses(t: Tunnel, ev: Event, h: nat) {
    AppBefalls(t, ev, h, A.LocalClose)
  }

  predicate AppFails(t: Tunnel, ev: Event, h: nat) {
    AppBefalls(t, ev, h, A.LocalError)
  }

  predicate AppBefalls(t: Tunnel, ev: Event, h: nat, l: A.Local) {
    && ev == AgentLocal(h, l) && t.HopAt(h).far.a.Some? && !t.HopAt(h).far.Rec().cleaned
    && t.Str(h).ident.AgentWs() in t.agentUp
  }

  // ---------------------------------------------------------------------------
  // One step
  // ---------------------------------------------------------------------------

  /** A log has grown by nothing that ends a stream. */
  predicate KeepsTalking(log: seq<Frame>, log': seq<Frame>) {
    log' == log || (|log'| == |log| + 1 && log'[..|log|] == log && !Terminal(log'[|log|]))
  }

  lemma ServedQuietly(c: C.Stream, e: C.Env, f: Frame)
    ensures KeepsTalking(c.sent, C.FromServer(c, e, f).sent)
  {
    hide C.FromServer;
    C.FromServerServes(c, e, f);
  }

  lemma ReadsQuietly(t: Tunnel, lv: Levels, g: nat, admit: bool, h: nat)
    requires SentToClient(t, g) && !(g == h && IsOpening(NextToClient(t, h)))
    ensures KeepsTalking(Said(t, h), Said(ClientReads(t, lv, g, admit), h))
  {
    hide C.FromServer, C.Open, KeepsTalking;
    Quiet(Said(t, h));
    var key, t1 := ClientKey(t.Str(g).ident), WithNear(t, g, t.HopAt(g).near.ReadByClient());
    if key in t.clientIds && IsStream(t1, t.clientIds[key]) {
      ServedQuietly(t1.HopAt(t.clientIds[key]).near.Rec(), ClientEnv(t, lv, t.Str(g).ident.ws), NextToClient(t, g));
    }
  }

  lemma Quiet(log: seq<Frame>)
    ensures KeepsTalking(log, log)
  {
  }

  /** The step is an event of the client's own socket for stream h, or hands it the TCP_OPEN. */
  predicate Speaks(t: Tunnel, ev: Event, h: nat) {
    match ev
    case ClientLocal(g, _) => g == h
    case ToClient(g, _) => g == h && IsOpening(NextToClient(t, h))
    case _ => false
  }

  /** The step is an event of the agent's own socket for stream h. */
  predicate AgentSpeaks(ev: Event, h: nat) {
    match ev
    case AgentLocal(g, _) => g == h
    case _ => false
  }

  /** What happens to the agent's end leaves the client's alone, and the other way round. */
  lemma EndsApart(h: nat)
    ensures forall t: Tunnel, g: nat, a: A.Stream :: PutAgent(t, g, a).HopAt(h).near == t.HopAt(h).near
    ensures forall t: Tunnel, g: nat, f: Far :: WithFar(t, g, f).HopAt(h).near == t.HopAt(h).near
    ensures forall t: Tunnel, g: nat, c: C.Stream :: PutClient(t, g, c).HopAt(h).far == t.HopAt(h).far
    ensures forall t: Tunnel, g: nat, n: Near :: WithNear(t, g, n).HopAt(h).far == t.HopAt(h).far
  {
  }

  /** Any other step makes the client say a PAUSE at most. */
  lemma NearQuiet(t: Tunnel, cfg: R.Config, rd: R.Readings, lv: Levels, ev: Event, h: nat)
    requires Enabled(t, cfg, rd, lv, ev) && !Speaks(t, ev, h)
    ensures KeepsTalking(Said(t, h), Said(Step(t, cfg, rd, lv, ev), h))
  {
    hide R.Step, R.Connect, R.FromClient, R.FromAgent, R.Enabled, C.OnLocal, A.OnLocal, A.FromServer, ClientReads, S.Possible, C.Possible, A.Possible,
         Own, OpensReusable, Answered, Rejected, Issued, A.RemoveSock, Routable, StrayInTurn, KeepsTalking, PutAgent, WithFar;
    EndsApart(h);
    Quiet(Said(t, h));
    if ev.ToClient? { ReadsQuietly(t, lv, ev.h, ev.admit, h); }
  }

  /** The ends named by a log. */
  predicate SaysClose(log: seq<Frame>) {
    TcpClose in log
  }

  predicate SaysAbort(log: seq<Frame>) {
    TcpAbort in log
  }

  lemma QuietSaysNothing(log: seq<Frame>, log': seq<Frame>)
    requires KeepsTalking(log, log')
    ensures SaysClose(log') == SaysClose(log) && SaysAbort(log') == SaysAbort(log)
  {
    if log' != log { assert log' == log + [log'[|log|]]; }
  }

  lemma LocalSays(c: C.Stream, e: C.Env, l: C.Local)
    requires C.Inv(c, e.wsOpen) && !c.took.crossed && C.Possible(c, e, l)
    ensures var log' := C.OnLocal(c, e, l).sent;
            && (SaysClose(log') <==> SaysClose(c.sent) || (!c.cleaned && e.wsOpen && l.LocalClose?))
            && (SaysAbort(log') <==> SaysAbort(c.sent) || (!c.cleaned && e.wsOpen && (l.LocalError? || (l.Timeout? && !c.sock.connected))))
  {
    hide C.Inv, C.OnLocal;
    if c.cleaned {
      ClientGoneSilent(c, e, l);
    } else {
      CA.AnswersExactly(c, e, CA.Happens(l));
      assert c.sent + [] == c.sent;
    }
  }

  lemma OpeningSays(id: nat, e: C.Env, wellFormed: bool, admit: bool)
    ensures var log := C.Open(id, e, wellFormed, admit).sent;
            !SaysClose(log) && (SaysAbort(log) <==> e.wsOpen && !(wellFormed && admit))
  {
    hide C.Open;
    CA.OpensExactly(id, e, wellFormed, admit);
  }

  /** Before the TCP_OPEN the client has no record of the stream, and has said nothing. */
  lemma OpensOnce(t: Tunnel, cfg: R.Config, h: nat)
    requires Inv(t, cfg) && SentToClient(t, h) && IsOpening(NextToClient(t, h))
    ensures Said(t, h) == []
  {
    hide Inv, SI.Inv, RI.EntryOk, C.Inv, NearIn, NearOut, AgentLeg, S.ClientTalk;
    StreamAt(t, cfg, h);
    WellTold(t.Str(h), RI.Surroundings(t.r.reg, cfg, t.Str(h).ident));
    RT.TalkShape(t.Str(h).sent.toClient);
  }

  lemma WellTold(s: S.Stream, e: S.Env)
    requires SI.Inv(s, e)
    ensures S.ClientTalk(s.sent.toClient) != S.Malformed
  {
    hide S.ClientTalk, S.FarTalk, DataOf, TotalBytes;
  }

  lemma LocalStep(t: Tunnel, cfg: R.Config, lv: Levels, h: nat, l: C.Local)
    requires Inv(t, cfg) && ClientCan(t, lv, h, l)
    ensures Said(ClientStep(t, lv, h, l), h) == C.OnLocal(t.HopAt(h).near.Rec(), ClientEnv(t, lv, t.Str(h).ident.ws), l).sent
    ensures var c := t.HopAt(h).near.Rec(); C.Inv(c, t.Str(h).ident.ws in t.clientUp) && !c.took.crossed && Said(t, h) == c.sent
  {
    hide Inv, C.OnLocal, C.Inv, SI.Inv, RI.EntryOk, NearIn, NearOut, AgentLeg;
    StreamAt(t, cfg, h);
  }

  lemma OpeningStep(t: Tunnel, lv: Levels, h: nat, admit: bool)
    requires SentToClient(t, h) && IsOpening(NextToClient(t, h))
    ensures Said(ClientReads(t, lv, h, admit), h)
            == C.Open(t.Str(h).ident.id, ClientEnv(t, lv, t.Str(h).ident.ws), WellFormed(NextToClient(t, h)), admit).sent
  {
    hide C.Open;
  }

  /** What a step makes the client say of the end of a stream, it says for its reason. */
  lemma StepMeans(t: Tunnel, cfg: R.Config, rd: R.Readings, lv: Levels, ev: Event, h: nat)
    requires Inv(t, cfg) && Enabled(t, cfg, rd, lv, ev)
    ensures var t' := Step(t, cfg, rd, lv, ev);
            && (SaysClose(Said(t', h)) <==> SaysClose(Said(t, h)) || Closes(t, ev, h))
            && (SaysAbort(Said(t', h)) <==> SaysAbort(Said(t, h)) || Fails(t, ev, h))
  {
    hide Inv, R.Step, R.Connect, R.Enabled, RelayMoves, AgentJoined, AgentRequested, RelayReadsClient, RelayReadsAgent, ClientReads, AgentReads,
         AgentReadsStray, ClientStep, AgentStep, Own, OpensReusable, Issued, Rejected, C.Possible, A.Possible, Routable, A.RemoveSock, StrayInTurn,
         SaysClose, SaysAbort, Said;
    if !Speaks(t, ev, h) {
      NearQuiet(t, cfg, rd, lv, ev, h);
      QuietSaysNothing(Said(t, h), Said(Step(t, cfg, rd, lv, ev), h));
    } else if ev.ClientLocal? {
      LocalStep(t, cfg, lv, h, ev.c);
      assert C.Possible(t.HopAt(h).near.Rec(), ClientEnv(t, lv, t.Str(h).ident.ws), ev.c);
      LocalSays(t.HopAt(h).near.Rec(), ClientEnv(t, lv, t.Str(h).ident.ws), ev.c);
    } else {
      OpeningStep(t, lv, h, ev.admit);
      OpensOnce(t, cfg, h);
      OpeningSays(t.Str(h).ident.id, ClientEnv(t, lv, t.Str(h).ident.ws), WellFormed(NextToClient(t, h)), ev.admit);
      NothingSaid();
    }
  }

  lemma NothingSaid()
    ensures !SaysClose([]) && !SaysAbort([])
  {
  }

  // The agent's end.

  lemma AgentServedQuietly(a: A.Stream, e: A.Env, f: Frame)
    ensures KeepsTalking(a.sent, A.FromServer(a, e, f).sent)
  {
    hide A.FromServer;
    A.FromServerServes(a, e, f);
  }

  lemma AgentReadsQuietly(t: Tunnel, cfg: R.Config, lv: Levels, g: nat, alive: bool, h: nat)
    requires Inv(t, cfg) && SentToAgent(t, g)
    ensures KeepsTalking(AgentSaid(t, h), AgentSaid(AgentReads(t, lv, g, alive), h))
  {
    hide A.FromServer, Answered, A.Find, KeepsTalking, Inv, LegOk, TD.FarAfter;
    Quiet(AgentSaid(t, h));
    TD.AgentReadsLeg(t, cfg, lv, g, alive);
    var key, t1 := AgentKey(t.Str(g).ident), WithFar(t, g, t.HopAt(g).far.ReadByAgent());
    if key in t.agentIds && IsStream(t1, t.agentIds[key]) {
      AgentServedQuietly(t1.HopAt(t.agentIds[key]).far.Rec(), AgentEnv(t, lv, t.Str(g).ident.AgentWs()), NextToAgent(t, g));
    }
  }

  lemma StrayReadQuietly(t: Tunnel, lv: Levels, a: nat, h: nat)
    ensures KeepsTalking(AgentSaid(t, h), AgentSaid(AgentReadsStray(t, lv, a), h))
  {
    hide A.FromServer, KeepsTalking;
    Quiet(AgentSaid(t, h));
    var key, t1 := (a, StrayId(t, a)), WithConn(t, a, StrayRead(t.Conn(a)));
    if key in t.agentIds && IsStream(t1, t.agentIds[key]) {
      AgentServedQuietly(t1.HopAt(t.agentIds[key]).far.Rec(), AgentEnv(t, lv, a), TcpAbort);
    }
  }

  /** A step that is not an event of the agent's own socket makes the agent say a PAUSE at most. */
  lemma FarQuiet(t: Tunnel, cfg: R.Config, rd: R.Readings, lv: Levels, ev: Event, h: nat)
    requires Inv(t, cfg) && Enabled(t, cfg, rd, lv, ev) && !AgentSpeaks(ev, h)
    ensures KeepsTalking(AgentSaid(t, h), AgentSaid(Step(t, cfg, rd, lv, ev), h))
  {
    hide Inv, R.Step, R.Connect, R.FromClient, R.FromAgent, R.Enabled, C.OnLocal, C.FromServer, C.Open, A.OnLocal, AgentReads, AgentReadsStray,
         S.Possible, C.Possible, A.Possible, Own, OpensReusable, Answered, Rejected, Issued, A.RemoveSock, Routable, StrayInTurn, KeepsTalking,
         PutClient, WithNear;
    EndsApart(h);
    Quiet(AgentSaid(t, h));
    if ev.ToAgent? { AgentReadsQuietly(t, cfg, lv, ev.h, ev.alive, h); }
    if ev.StrayAbort? { StrayReadQuietly(t, lv, ev.a, h); }
  }

  lemma AppSays(a: A.Stream, e: A.Env, l: A.Local)
    requires A.Inv(a, e.wsOpen) && A.Possible(a, l) && (l.Shutdown? ==> !e.wsOpen)
    ensures var log' := A.OnLocal(a, e, l).sent;
            && (SaysClose(log') <==> SaysClose(a.sent) || (!a.cleaned && e.wsOpen && l.LocalClose?))
            && (SaysAbort(log') <==> SaysAbort(a.sent) || (!a.cleaned && e.wsOpen && l.LocalError?))
  {
    hide A.Inv, A.OnLocal;
    if a.cleaned {
      AgentGoneSilent(a, e, l);
    } else {
      AA.AnswersExactly(a, e, AA.Happens(l));
      assert a.sent + [] == a.sent;
    }
  }

  lemma AppStep(t: Tunnel, cfg: R.Config, lv: Levels, h: nat, l: A.Local)
    requires Inv(t, cfg) && AgentCan(t, h, l)
    ensures AgentSaid(AgentStep(t, lv, h, l), h) == A.OnLocal(t.HopAt(h).far.Rec(), AgentEnv(t, lv, t.Str(h).ident.AgentWs()), l).sent
    ensures var a := t.HopAt(h).far.Rec(); A.Inv(a, t.Str(h).ident.AgentWs() in t.agentUp) && AgentSaid(t, h) == a.sent
  {
    hide Inv, A.OnLocal, A.Inv, SI.Inv, RI.EntryOk, FarIn, FarOut, ClientLeg, AckFirst;
    StreamAt(t, cfg, h);
  }

  lemma AppStepMeans(t: Tunnel, cfg: R.Config, rd: R.Readings, lv: Levels, ev: Event, h: nat)
    requires Inv(t, cfg) && Enabled(t, cfg, rd, lv, ev)
    ensures var t' := Step(t, cfg, rd, lv, ev);
            && (SaysClose(AgentSaid(t', h)) <==> SaysClose(AgentSaid(t, h)) || AppCloses(t, ev, h))
            && (SaysAbort(AgentSaid(t', h)) <==> SaysAbort(AgentSaid(t, h)) || AppFails(t, ev, h))
  {
    hide Inv, R.Step, R.Connect, R.Enabled, RelayMoves, AgentJoined, AgentRequested, RelayReadsClient, RelayReadsAgent, ClientReads, AgentReads,
         AgentReadsStray, ClientStep, AgentStep, Own, OpensReusable, Issued, Rejected, C.Possible, A.Possible, Routable, A.RemoveSock, StrayInTurn,
         SaysClose, SaysAbort, AgentSaid;
    if AgentSpeaks(ev, h) {
      AppStep(t, cfg, lv, h, ev.l);
      AppSays(t.HopAt(h).far.Rec(), AgentEnv(t, lv, t.Str(h).ident.AgentWs()), ev.l);
    } else {
      FarQuiet(t, cfg, rd, lv, ev, h);
      QuietSaysNothing(AgentSaid(t, h), AgentSaid(Step(t, cfg, rd, lv, ev), h));
    }
  }

  // ---------------------------------------------------------------------------
  // Over every run
  // ---------------------------------------------------------------------------

  datatype Cause = ServiceCloses | ServiceFails | ApplicationCloses | ApplicationFails

  predicate Occurs(t: Tunnel, ev: Event, h: nat, why: Cause) {
    match why
    case ServiceCloses => Closes(t, ev, h)
    case ServiceFails => Fails(t, ev, h)
    case ApplicationCloses => AppCloses(t, ev, h)
    case ApplicationFails => AppFails(t, ev, h)
  }

  /** The frame an end sends for it. */
  predicate IsSaid(t: Tunnel, h: nat, why: Cause) {
    match why
    case ServiceCloses => SaysClose(Said(t, h))
    case ServiceFails => SaysAbort(Said(t, h))
    case ApplicationCloses => SaysClose(AgentSaid(t, h))
    case ApplicationFails => SaysAbort(AgentSaid(t, h))
  }

  lemma StepSays(t: Tunnel, cfg: R.Config, rd: R.Readings, lv: Levels, ev: Event, h: nat, why: Cause)
    requires Inv(t, cfg) && Enabled(t, cfg, rd, lv, ev)
    ensures IsSaid(Step(t, cfg, rd, lv, ev), h, why) <==> IsSaid(t, h, why) || Occurs(t, ev, h, why)
  {
    hide Inv, Step, Enabled, Closes, Fails, AppCloses, AppFails, Said, AgentSaid, SaysClose, SaysAbort;
    if why.ServiceCloses? || why.ServiceFails? { StepMeans(t, cfg, rd, lv, ev, h); } else { AppStepMeans(t, cfg, rd, lv, ev, h); }
  }

  /** Some step of the script was such an event of stream h. */
  ghost predicate Occurred(cfg: R.Config, script: Script, h: nat, why: Cause) {
    exists k: nat :: k < |script| && OccursAt(cfg, script, k, h, why)
  }

  ghost predicate OccursAt(cfg: R.Config, script: Script, k: int, h: nat, why: Cause) {
    match EventAt(script, k)
    case None => false
    case Some(ev) => Occurs(After(cfg, Prefix(script, k)), ev, h, why)
  }

  lemma OccurredNow(cfg: R.Config, script: Script, h: nat, why: Cause)
    requires script != []
    ensures Occurred(cfg, script, h, why) <==> Occurred(cfg, Before(script), h, why) || OccursAt(cfg, script, |script| - 1, h, why)
  {
    hide After, Occurs;
    forall k: nat | k < |script| - 1 ensures OccursAt(cfg, Before(script), k, h, why) == OccursAt(cfg, script, k, h, why) {
      assert Prefix(Before(script), k) == Prefix(script, k);
    }
  }

  /**
   * In every run, the client has sent TCP_CLOSE on a stream exactly if its local service closed the connection in
   * order, and TCP_ABORT exactly if the connection failed, was not made in time, or was refused; and the agent
   * TCP_CLOSE exactly if the local application closed its connection in order, and TCP_ABORT exactly if it failed.
   */
  lemma {:induction false} EndsExactly(cfg: R.Config, script: Script, h: nat, why: Cause)
    requires Run(cfg, script).Some?
    ensures IsSaid(After(cfg, script), h, why) <==> Occurred(cfg, script, h, why)
  {
    hide Inv, Step, Enabled, Occurs, Occurred, IsSaid;
    if script == [] {
      NothingAtFirst(cfg, h);
      NothingOccurred(cfg, h, why);
    } else {
      var n := |script| - 1;
      RunInv(cfg, script[..n]);
      EndsExactly(cfg, script[..n], h, why);
      StepSays(After(cfg, script[..n]), cfg, script[n].0, script[n].1, script[n].2, h, why);
      OccurredNow(cfg, script, h, why);
    }
  }

  lemma NothingOccurred(cfg: R.Config, h: nat, why: Cause)
    ensures !Occurred(cfg, [], h, why)
  {
    hide After, Occurs;
  }

  lemma NothingAtFirst(cfg: R.Config, h: nat)
    ensures forall why :: !IsSaid(After(cfg, []), h, why)
    ensures !R.IsTcp(After(cfg, []).r.all, h)
  {
    hide Step, Enabled;
  }

  // ---------------------------------------------------------------------------
  // What the relay makes of it
  // ---------------------------------------------------------------------------

  /** What a step of the tunnel brings to the relay's record of stream h. */
  function InputOf(t: Tunnel, ev: Event, h: nat): Option<RA.Input> {
    match TE.RelayEventOf(t, ev)
    case None => None
    case Some(v) => RH.InputOf(t.r, v, h)
  }

  /** Frames reach the relay's record of a stream only from its own ends. */
  predicate IsOwn(t: Tunnel, ev: Event, h: nat, i: Option<RA.Input>) {
    match i
    case None => true
    case Some(OfClient(f)) => ev == ClientFrame(h) && ClientSent(t, h) && f == NextFromClient(t, h)
    case Some(OfAgent(f)) => ev == AgentFrame(h) && AgentSent(t, h) && f == NextFromAgent(t, h)
    case Some(Happens(_)) => true
  }

  lemma InputsAreOwn(t: Tunnel, cfg: R.Config, rd: R.Readings, lv: Levels, ev: Event, h: nat)
    requires Inv(t, cfg) && Enabled(t, cfg, rd, lv, ev) && R.IsTcp(t.r.all, h)
    ensures IsOwn(t, ev, h, InputOf(t, ev, h))
  {
    hide Inv, R.Step, R.Connect, R.Enabled, OpensReusable, C.Possible, A.Possible, StrayInTurn, Routable;
    match ev
    case ClientFrame(g) => TD.ClientDispatch(t, cfg, g);
    case AgentFrame(g) => TD.AgentDispatch(t, cfg, g);
    case _ =>
  }

  /** A step of the tunnel, seen by the relay's record of one live stream. */
  lemma RelayDoes(t: Tunnel, cfg: R.Config, rd: R.Readings, lv: Levels, ev: Event, h: nat)
    requires Inv(t, cfg) && Enabled(t, cfg, rd, lv, ev) && R.IsTcp(t.r.all, h) && !t.Str(h).cleaned
    ensures R.IsTcp(Step(t, cfg, rd, lv, ev).r.all, h)
    ensures var s, s', i := t.Str(h), Step(t, cfg, rd, lv, ev).Str(h), InputOf(t, ev, h);
            var e := R.EnvOf(t.r, cfg, rd, s.ident);
            SI.Inv(s, e) && RH.Took(s, s', e, i) && RH.Did(s, s', e, i)
  {
    hide Step, Enabled, R.Step, R.Enabled, RI.InvBut, LegsOk, ClientIndexed, AgentIndexed, Apart, Served, ServedOnce, ConnsOk, RejectionsOk, StraysOk,
         RM.Moved, SI.Inv, RH.InputOf, RH.Did;
    Clauses(t, cfg);
    TE.RelayStepOf(t, cfg, rd, lv, ev);
    var v := TE.RelayEventOf(t, ev);
    var e := R.EnvOf(t.r, cfg, rd, t.Str(h).ident);
    if v.Some? {
      RM.StepMoved(t.r, cfg, rd, v.value, h);
      RH.InputMoved(t.r, cfg, rd, v.value, h);
    } else {
      LiveInv(t, cfg, rd, h);
    }
    RH.TookDid(t.Str(h), Step(t, cfg, rd, lv, ev).Str(h), e, InputOf(t, ev, h));
  }

  lemma LiveInv(t: Tunnel, cfg: R.Config, rd: R.Readings, h: nat)
    requires RI.Inv(t.r, cfg) && R.IsTcp(t.r.all, h) && !t.Str(h).cleaned
    ensures SI.Inv(t.Str(h), R.EnvOf(t.r, cfg, rd, t.Str(h).ident))
  {
    hide RI.InvBut, SI.Inv;
    RI.EntryAt(t.r, cfg, h);
    RI.TcpReady(t.r, cfg, rd, t.Str(h));
  }

  /** The agent is told TCP_CLOSE only when the client has closed; the client only when the far side has. */
  lemma FarHearsClose(s: S.Stream, u: S.Stream, e: S.Env, i: RA.Input)
    requires RA.Answers(s, u, e, i)
    ensures SaysClose(u.sent.toFar) ==> SaysClose(s.sent.toFar) || (i.OfClient? && i.f.TcpClose?)
  {
    hide RA.Told, RA.HeldBack, RA.Overflows, RA.Reopens, RA.ByRelay, RA.Ends, RC.SomeHigh;
    assert TcpClose !in RA.Reading(s, u, e, i) && TcpClose !in RA.Reply(s, i) && TcpClose !in RA.Writes(s, i);
  }

  lemma ClientHearsClose(s: S.Stream, u: S.Stream, e: S.Env, i: RA.Input)
    requires RA.Answers(s, u, e, i) && RA.Arrives(s, e, i) && s.ident.peer.Agent?
    ensures SaysClose(u.sent.toClient) ==> SaysClose(s.sent.toClient) || (i.OfAgent? && i.f.TcpClose?) || (i.Happens? && i.ev.QueuedClose?)
  {
    hide RA.FarTold, RA.HeldBack, RA.Overflows, RA.Forwards, RA.ByRelay, RA.ByClient;
    var data := RA.DataFrames(RA.Forwards(s, e, i));
    assert forall k :: 0 <= k < |data| ==> data[k].TcpData?;
    assert TcpClose !in data;
  }

  lemma SaneClose(s: S.Stream, e: S.Env)
    requires SI.Inv(s, e)
    ensures (s.sock.closeQueued ==> s.sock.destroyed) && (SaysClose(s.sent.toClient) ==> s.cleaned)
  {
    hide S.ClientTalk, S.FarTalk, DataOf, TotalBytes;
    TE.TalkCloses(s.sent.toClient);
  }

  lemma QueuedStaysShort(s: S.Stream, e: S.Env)
    requires !s.cleaned && (s.sock.closeQueued ==> RS.Short(s)) && RA.Arrives(s, e, RA.Happens(S.QueuedClose))
    ensures RS.Short(S.OnLocal(s, e, S.QueuedClose))
  {
    hide RS.Short, S.OnClose;
    RS.QueuedCloseExplained(s, e);
  }

  lemma SameIdent(s: S.Stream, e: S.Env, i: RA.Input)
    requires SI.Inv(s, e) && RA.Arrives(s, e, i)
    ensures RA.Next(s, e, i).ident == s.ident
  {
    hide SI.Inv, S.FromClient, S.FromAgent, S.OnLocal, S.Possible;
    match i
    case OfClient(f) => SI.FromClientInv(s, e, f);
    case OfAgent(f) => SI.FromAgentInv(s, e, f);
    case Happens(l) => SI.OnLocalInv(s, e, l);
  }

  /** Of one input: where the TCP_CLOSEs come from that the relay tells of a stream. */
  lemma PassesOn(s: S.Stream, u: S.Stream, e: S.Env, i: Option<RA.Input>)
    requires SI.Inv(s, e) && !s.cleaned && RH.Took(s, u, e, i) && RH.Did(s, u, e, i) && RS.Explained(s)
    ensures u.ident == s.ident
    ensures SaysClose(u.sent.toFar) ==> SaysClose(s.sent.toFar) || i == Some(RA.OfClient(TcpClose))
    ensures s.ident.peer.Agent? && SaysClose(u.sent.toClient) ==> i == Some(RA.OfAgent(TcpClose)) || RS.Short(u)
  {
    hide SI.Inv, RS.Short, RA.Arrives, RA.Answers, RA.FlagsMove, S.FromClient, S.FromAgent, S.OnLocal, SaysClose;
    SaneClose(s, e);
    if i.Some? {
      SameIdent(s, e, i.value);
      FarHearsClose(s, u, e, i.value);
      if s.ident.peer.Agent? { ClientHearsClose(s, u, e, i.value); }
      if s.ident.peer.Agent? && i.value.Happens? && i.value.ev.QueuedClose? { QueuedStaysShort(s, e); }
    }
  }

  lemma StaysGone(s: S.Stream, s': S.Stream)
    requires s.cleaned && SE.Unprompted(s, s')
    ensures s'.sent == s.sent && s'.ident == s.ident && (s.ident.peer.Agent? ==> RS.Short(s') == RS.Short(s))
  {
  }

  /** Of one step of the tunnel. */
  lemma RelayPassesOn(t: Tunnel, cfg: R.Config, rd: R.Readings, lv: Levels, ev: Event, h: nat)
    requires Inv(t, cfg) && Enabled(t, cfg, rd, lv, ev) && R.IsTcp(t.r.all, h) && RS.AllExplained(t.r.all)
    ensures var s, s' := t.Str(h), Step(t, cfg, rd, lv, ev).Str(h);
            && s'.ident == s.ident
            && (SaysClose(s'.sent.toFar) ==> SaysClose(s.sent.toFar) || SaysClose(Said(t, h)))
            && (s.ident.peer.Agent? && SaysClose(s'.sent.toClient) ==>
                  SaysClose(AgentSaid(t, h)) || RS.Short(s') || (SaysClose(s.sent.toClient) && RS.Short(s') == RS.Short(s)))
  {
    hide Inv, Step, Enabled, RH.Took, RH.Did, SI.Inv, RS.Explained, RS.Short, SE.Unprompted, InputOf, SaysClose, Said, AgentSaid;
    if t.Str(h).cleaned {
      TE.GoneStep(t, cfg, rd, lv, ev, h);
      StaysGone(t.Str(h), Step(t, cfg, rd, lv, ev).Str(h));
    } else {
      RelayDoes(t, cfg, rd, lv, ev, h);
      InputsAreOwn(t, cfg, rd, lv, ev, h);
      PassesOn(t.Str(h), Step(t, cfg, rd, lv, ev).Str(h), R.EnvOf(t.r, cfg, rd, t.Str(h).ident), InputOf(t, ev, h));
      FramesAreSaid(t, h);
    }
  }

  lemma FramesAreSaid(t: Tunnel, h: nat)
    ensures ClientSent(t, h) && NextFromClient(t, h) == TcpClose ==> SaysClose(Said(t, h))
    ensures AgentSent(t, h) && NextFromAgent(t, h) == TcpClose ==> SaysClose(AgentSaid(t, h))
  {
  }

  /** A record that is not there yet has told nobody of an ending. */
  lemma BornQuiet(t: Tunnel, cfg: R.Config, rd: R.Readings, lv: Levels, ev: Event, h: nat)
    requires Inv(t, cfg) && Enabled(t, cfg, rd, lv, ev)
    requires !R.IsTcp(t.r.all, h) && R.IsTcp(Step(t, cfg, rd, lv, ev).r.all, h)
    ensures var s := Step(t, cfg, rd, lv, ev).Str(h); !SaysClose(s.sent.toFar) && !SaysClose(s.sent.toClient)
  {
    hide Step, Enabled, R.Step, R.Enabled, RI.InvBut, LegsOk, ClientIndexed, AgentIndexed, Apart, Served, ServedOnce, ConnsOk, RejectionsOk, StraysOk;
    Clauses(t, cfg);
    TE.RelayStepOf(t, cfg, rd, lv, ev);
    var v := TE.RelayEventOf(t, ev);
    if v.Some? {
      if h < |t.r.all| { RR.WebStays(t.r, cfg, rd, v.value, h); }
      RM.StepAdds(t.r, cfg, rd, v.value, h);
    }
  }

  /**
   * In every run, an agent is told TCP_CLOSE only of a stream whose local service closed its connection in order;
   * and a client only of one whose local application did, or of which the relay never forwarded some chunk.
   */
  lemma {:induction false} CloseMeansClosed(cfg: R.Config, script: Script, h: nat)
    requires Run(cfg, script).Some? && R.IsTcp(After(cfg, script).r.all, h)
    ensures var s := After(cfg, script).Str(h);
            && (SaysClose(s.sent.toFar) ==> Occurred(cfg, script, h, ServiceCloses))
            && (s.ident.peer.Agent? && SaysClose(s.sent.toClient) ==> Occurred(cfg, script, h, ApplicationCloses) || RS.Short(s))
  {
    hide Inv, Step, Enabled, SaysClose, Said, AgentSaid, Occurred, Occurs, RS.Short, RS.AllExplained, R.IsTcp;
    if script == [] {
      NothingAtFirst(cfg, h);
    } else {
      var n := |script| - 1;
      var t := After(cfg, script[..n]);
      RunInv(cfg, script[..n]);
      if R.IsTcp(t.r.all, h) {
        CloseMeansClosed(cfg, script[..n], h);
        EndsExactly(cfg, script[..n], h, ServiceCloses);
        EndsExactly(cfg, script[..n], h, ApplicationCloses);
        OccurredNow(cfg, script, h, ServiceCloses);
        OccurredNow(cfg, script, h, ApplicationCloses);
        TE.RunExplained(cfg, script[..n]);
        RelayPassesOn(t, cfg, script[n].0, script[n].1, script[n].2, h);
      } else {
        BornQuiet(t, cfg, script[n].0, script[n].1, script[n].2, h);
      }
    }
  }

  // ---------------------------------------------------------------------------
  // What the ends are told
  // ---------------------------------------------------------------------------

  /** How the relay words an ending for the other end: a refusal too, if the stream was not confirmed yet. */
  function WordsFor(s: S.Stream, f: Frame): seq<Frame> {
    (if f.TcpAbort? && s.awaitingClientAck then [ConnectRejected(S.ReplyTo(s.ident))] else []) + (if s.sock.destroyed then [] else [f])
  }

  lemma FramesAreSent(t: Tunnel, cfg: R.Config, rd: R.Readings, lv: Levels, h: nat)
    ensures Enabled(t, cfg, rd, lv, ClientFrame(h)) ==> ClientSent(t, h)
    ensures Enabled(t, cfg, rd, lv, AgentFrame(h)) ==> AgentSent(t, h)
  {
    hide R.Step, R.Connect, R.Enabled, OpensReusable, C.Possible, A.Possible, StrayInTurn, Routable, Own;
  }

  /** A client's ending is read: the stream is over, and its agent is told the same ending, once. */
  lemma ClientEndingPassedOn(t: Tunnel, cfg: R.Config, rd: R.Readings, lv: Levels, h: nat)
    requires Inv(t, cfg) && Enabled(t, cfg, rd, lv, ClientFrame(h)) && R.IsTcp(t.r.all, h) && !t.Str(h).cleaned
    requires t.Str(h).ident.peer.Agent? && Terminal(NextFromClient(t, h))
    ensures var s, s', f := t.Str(h), Step(t, cfg, rd, lv, ClientFrame(h)).Str(h), NextFromClient(t, h);
            && s'.cleaned && s'.sent.toClient == s.sent.toClient
            && s'.sent.toFar == s.sent.toFar + if s.ident.AgentWs() in t.r.reg.openAgents then WordsFor(s, f) else []
  {
    hide Inv, Step, Enabled, RA.Arrives, RA.Answers, RA.FlagsMove, RH.Took, InputOf, WordsFor, Terminal;
    RelayDoes(t, cfg, rd, lv, ClientFrame(h), h);
    FramesAreSent(t, cfg, rd, lv, h);
    ReadFromClient(t, cfg, h);
    EndingTold(t.Str(h), Step(t, cfg, rd, lv, ClientFrame(h)).Str(h), R.EnvOf(t.r, cfg, rd, t.Str(h).ident), NextFromClient(t, h));
  }

  lemma EndingTold(s: S.Stream, u: S.Stream, e: S.Env, f: Frame)
    requires RA.Answers(s, u, e, RA.OfClient(f)) && s.ident.peer.Agent? && Terminal(f)
    ensures u.cleaned && u.sent.toClient == s.sent.toClient
    ensures u.sent.toFar == s.sent.toFar + if e.agentOpen then WordsFor(s, f) else []
  {
    hide RC.SomeHigh;
    var i := RA.OfClient(f);
    assert RA.Ends(s, e, i) && RA.Farewell(s, i) == [] && RA.Forwards(s, e, i) == [];
  }

  lemma ReadFromClient(t: Tunnel, cfg: R.Config, h: nat)
    requires Inv(t, cfg) && ClientSent(t, h) && R.IsTcp(t.r.all, h) && !t.Str(h).cleaned
    ensures InputOf(t, ClientFrame(h), h) == Some(RA.OfClient(NextFromClient(t, h)))
  {
    hide Inv;
    TD.ClientDispatch(t, cfg, h);
  }

  /** An agent's ending is read: the stream is over, and its client is told the same ending, once. */
  lemma AgentEndingPassedOn(t: Tunnel, cfg: R.Config, rd: R.Readings, lv: Levels, h: nat)
    requires Inv(t, cfg) && Enabled(t, cfg, rd, lv, AgentFrame(h)) && R.IsTcp(t.r.all, h) && !t.Str(h).cleaned
    requires Terminal(NextFromAgent(t, h)) && !t.Str(h).sock.destroyed && !t.Str(h).awaitingClientAck
    ensures var s, s', f := t.Str(h), Step(t, cfg, rd, lv, AgentFrame(h)).Str(h), NextFromAgent(t, h);
            && s'.cleaned && s'.sent.toFar == s.sent.toFar
            && s'.sent.toClient == s.sent.toClient + if s.ident.ws in t.r.reg.openClients then [f] else []
  {
    hide Inv, Step, Enabled, RA.Arrives, RA.Answers, RA.FlagsMove, RH.Took, InputOf;
    RelayDoes(t, cfg, rd, lv, AgentFrame(h), h);
    FramesAreSent(t, cfg, rd, lv, h);
    ReadFromAgent(t, cfg, h);
    AgentEndingTold(t.Str(h), Step(t, cfg, rd, lv, AgentFrame(h)).Str(h), R.EnvOf(t.r, cfg, rd, t.Str(h).ident), NextFromAgent(t, h));
  }

  lemma AgentEndingTold(s: S.Stream, u: S.Stream, e: S.Env, f: Frame)
    requires RA.Answers(s, u, e, RA.OfAgent(f)) && s.ident.peer.Agent? && Terminal(f) && !s.sock.destroyed && !s.awaitingClientAck
    ensures u.cleaned && u.sent.toFar == s.sent.toFar
    ensures u.sent.toClient == s.sent.toClient + if e.wsOpen then [f] else []
  {
    hide RC.SomeHigh;
    var i := RA.OfAgent(f);
    assert RA.Ends(s, e, i) && RA.Farewell(s, i) == [f] && RA.Forwards(s, e, i) == [];
  }

  lemma ReadFromAgent(t: Tunnel, cfg: R.Config, h: nat)
    requires Inv(t, cfg) && AgentSent(t, h) && R.IsTcp(t.r.all, h) && !t.Str(h).cleaned && !NextFromAgent(t, h).TcpConnect?
    ensures t.Str(h).ident.peer.Agent? && InputOf(t, AgentFrame(h), h) == Some(RA.OfAgent(NextFromAgent(t, h)))
  {
    hide Inv;
    TD.AgentDispatch(t, cfg, h);
    TE.BoundIsAcked(t, cfg, h);
  }
}
