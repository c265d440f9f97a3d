/**
 * What the agent is told about its virtual socket: the last PAUSE or RESUME sent to it says whether the
 * socket is paused, except after a resume on which the client's WebSocket filled up again.
 */
module RelayControl {
  import opened Frames
  import opened RelayStream
  import opened RelayStreamInvariant
  import R = Relay
  import RI = RelayInvariant
  import RM = RelayMoves
  import RR = RelayRuns
  import SE = RelayStreamEffects
  import CM = ClientManager
  import H = HttpStream
  import Ids = StreamIds
  import TunnelId

  predicate ReadControl(f: Frame) {
    f.Pause? || f.Resume?
  }

  /** The last PAUSE or RESUME of a log. */
  function LastControl(log: seq<Frame>): Option<Frame> {
    if |log| == 0 then None
    else if ReadControl(log[|log| - 1]) then Some(log[|log| - 1])
    else LastControl(log[..|log| - 1])
  }

  lemma LastControlAppend(log: seq<Frame>, f: Frame)
    ensures LastControl(log + [f]) == if ReadControl(f) then Some(f) else LastControl(log)
  {
    assert (log + [f])[..|log|] == log;
  }

  // ---------------------------------------------------------------------------
  // Resuming, and pausing again meanwhile
  // ---------------------------------------------------------------------------

  predicate SomeHigh(highs: seq<bool>, n: nat) {
    exists i :: 0 <= i < n && High(highs, i)
  }

  lemma OnDataPauses(s: Stream, e: Env, c: Chunk, high: bool)
    requires !s.cleaned && !s.sock.destroyed && e.wsOpen && s.sock.paused == s.flow.localPausedForWs
    ensures var t := OnData(s, e, c, high);
            && !t.cleaned && !t.sock.destroyed && t.sock.paused == t.flow.localPausedForWs && (t.sock.paused <==> s.sock.paused || high)
  {
    hide ClientTalk, FarTalk, DataOf, Abort, SameInputs;
  }

  lemma {:induction false} EmitAllPauses(s: Stream, e: Env, chunks: seq<Chunk>, highs: seq<bool>)
    requires !s.cleaned && !s.sock.destroyed && e.wsOpen && s.sock.paused == s.flow.localPausedForWs
    ensures var t := EmitAll(s, e, chunks, highs);
            && !t.cleaned && !t.sock.destroyed && t.sock.paused == t.flow.localPausedForWs
            && (t.sock.paused <==> s.sock.paused || SomeHigh(highs, |chunks|))
    decreases |chunks|
  {
    hide ClientTalk, FarTalk, DataOf, SomeHigh, OnData, SameInputs;
    if |chunks| > 0 {
      OnDataPauses(s, e, chunks[0], High(highs, 0));
      var rest := if |highs| == 0 then [] else highs[1..];
      EmitAllPauses(OnData(s, e, chunks[0], High(highs, 0)), e, chunks[1..], rest);
      HighShift(highs, |chunks|);
    } else {
      assert !SomeHigh(highs, 0) by { NoneHigh(highs); }
    }
  }

  lemma NoneHigh(highs: seq<bool>)
    ensures !SomeHigh(highs, 0)
  {
  }

  lemma HighShift(highs: seq<bool>, n: nat)
    requires n > 0
    ensures SomeHigh(highs, n) <==> High(highs, 0) || SomeHigh(if |highs| == 0 then [] else highs[1..], n - 1)
  {
    var rest := if |highs| == 0 then [] else highs[1..];
    assert forall i :: 0 <= i < n - 1 ==> High(rest, i) == High(highs, i + 1);
    if SomeHigh(highs, n) && !High(highs, 0) {
      var i :| 0 <= i < n && High(highs, i);
      assert High(rest, i - 1);
    }
    if SomeHigh(rest, n - 1) {
      var i :| 0 <= i < n - 1 && High(rest, i);
      assert High(highs, i + 1);
    }
  }

  // ---------------------------------------------------------------------------
  // One step of a stream
  // ---------------------------------------------------------------------------

  /** The step sent a RESUME, and nothing after it. */
  predicate SendsResume(s: Stream, t: Stream) {
    |s.sent.toFar| < |t.sent.toFar| && t.sent.toFar[|t.sent.toFar| - 1] == Resume
  }

  /** The agent was told nothing new and the socket stays as it is, or it was told of a pause. */
  predicate Steady(s: Stream, t: Stream) {
    && !SendsResume(s, t)
    && if t.sock.paused == s.sock.paused then LastControl(t.sent.toFar) == LastControl(s.sent.toFar)
       else t.sock.paused && LastControl(t.sent.toFar) == Some(Pause)
  }

  /** A RESUME went out; the socket is paused again if a released chunk found the client over high water. */
  ghost predicate Resumes(s: Stream, t: Stream, highs: seq<bool>) {
    && s.sock.paused && SendsResume(s, t) && LastControl(t.sent.toFar) == Some(Resume)
    && (t.sock.paused <==> SomeHigh(highs, |s.sock.buffered|))
  }

  /** What a step tells the agent of a virtual socket that survives it. */
  ghost predicate Tells(s: Stream, t: Stream, highs: seq<bool>) {
    t.sock.destroyed || Steady(s, t) || Resumes(s, t, highs)
  }

  lemma Unchanged(s: Stream, t: Stream, highs: seq<bool>)
    requires t.sock.paused == s.sock.paused && t.sent.toFar == s.sent.toFar
    ensures Tells(s, t, highs)
  {
  }

  lemma ToAgentSteady(s: Stream, e: Env, f: Frame)
    requires !ReadControl(f)
    ensures Steady(s, ToAgent(s, e, f))
  {
    hide ClientTalk, FarTalk, DataOf;
    LastControlAppend(s.sent.toFar, f);
  }

  lemma PauseTells(s: Stream, e: Env)
    requires s.ident.peer.Agent? && e.agentOpen
    ensures Steady(s, PauseSocket(s, e))
  {
    hide ClientTalk, FarTalk, DataOf;
    LastControlAppend(s.sent.toFar, Pause);
  }

  lemma CleanupDestroys(s: Stream, e: Env)
    requires !s.cleaned
    ensures Cleanup(s, e).sock.destroyed && OnClose(s, e).sock.destroyed
  {
    hide ClientTalk, FarTalk, DataOf;
  }

  lemma AbortDestroys(s: Stream, e: Env, notify: bool)
    requires !s.cleaned
    ensures Abort(s, e, notify).sock.destroyed
  {
    hide ClientTalk, FarTalk, DataOf, Cleanup, OnClose, SameInputs;
    var a := AbortSocket(s, e);
    CleanupDestroys(if notify && e.wsOpen && !a.abortSent then ToClient(a.(abortSent := true), e, TcpAbort) else a, e);
  }

  lemma ErrorDestroys(s: Stream, e: Env)
    requires !s.cleaned
    ensures OnError(s, e).sock.destroyed
  {
    hide ClientTalk, FarTalk, DataOf, Abort;
    AbortDestroys(ToClient(s, e, TcpAbort), e, false);
  }

  lemma DataTells(s: Stream, e: Env, c: Chunk, high: bool)
    requires !s.cleaned && s.ident.peer.Agent? && e.agentOpen && (!s.sock.paused ==> !s.flow.localPausedForWs)
    ensures OnData(s, e, c, high).sock.destroyed || Steady(s, OnData(s, e, c, high))
  {
    hide ClientTalk, FarTalk, DataOf, Abort, PauseSocket, SameInputs, LastControl;
    if !e.wsOpen {
      AbortDestroys(s, e, true);
    } else {
      var f := ToClient(s.(flow := s.flow.(pendingSends := s.flow.pendingSends + 1)), e, TcpData(c));
      PauseTells(f.(flow := f.flow.(localPausedForWs := true)), e);
    }
  }

  /** Once the client's WebSocket has closed, the first released chunk aborts the stream. */
  lemma EmitAllAborts(s: Stream, e: Env, chunks: seq<Chunk>, highs: seq<bool>)
    requires !s.cleaned && !e.wsOpen && |chunks| > 0
    ensures EmitAll(s, e, chunks, highs).sock.destroyed
  {
    hide ClientTalk, FarTalk, DataOf, Abort, SameInputs;
    AbortDestroys(s, e, true);
    SE.AbortDone(s, e, true);
    EmitAllGone(Abort(s, e, true), e, chunks[1..], if |highs| == 0 then [] else highs[1..]);
  }

  lemma {:induction false} EmitAllGone(s: Stream, e: Env, chunks: seq<Chunk>, highs: seq<bool>)
    requires s.cleaned
    ensures EmitAll(s, e, chunks, highs) == s
    decreases |chunks|
  {
    hide ClientTalk, FarTalk, DataOf, Abort, SameInputs;
    if |chunks| > 0 { EmitAllGone(s, e, chunks[1..], if |highs| == 0 then [] else highs[1..]); }
  }

  /**
   * A resume always tells the agent RESUME last, yet the socket is paused again exactly when one of the
   * released chunks found the client's WebSocket over its high-water mark.
   */
  lemma ResumeMisleadsIff(s: Stream, e: Env)
    requires !s.cleaned && !s.sock.destroyed && s.sock.paused && !s.flow.localPausedForWs
    requires s.ident.peer.Agent? && e.agentOpen
    ensures ResumeSocket(s, e).sock.destroyed || Resumes(s, ResumeSocket(s, e), e.highs)
  {
    hide ClientTalk, FarTalk, DataOf, EmitAll, SomeHigh, LastControl;
    var t := EmitAll(Unbuffered(s), e, s.sock.buffered, e.highs);
    SE.EmitAllFar(Unbuffered(s), e, s.sock.buffered, e.highs);
    LastControlAppend(t.sent.toFar, Resume);
    if e.wsOpen {
      EmitAllPauses(Unbuffered(s), e, s.sock.buffered, e.highs);
    } else if s.sock.buffered != [] {
      EmitAllAborts(Unbuffered(s), e, s.sock.buffered, e.highs);
    } else {
      NoneHigh(e.highs);
      EmitNothing(Unbuffered(s), e, e.highs);
    }
  }

  lemma EmitNothing(s: Stream, e: Env, highs: seq<bool>)
    ensures EmitAll(s, e, [], highs) == s
  {
    hide ClientTalk, FarTalk, DataOf;
  }

  lemma SyncReadTells(s: Stream, e: Env)
    requires !s.cleaned && s.ident.peer.Agent? && e.agentOpen
    ensures Tells(s, SyncReadState(s, e), e.highs)
  {
    hide ClientTalk, FarTalk, DataOf, PauseSocket, LastControl, Resumes, Steady, SameInputs;
    if s.sock.destroyed {
    } else if s.flow.peerPausedRead || s.flow.localPausedForWs {
      PauseTells(s, e);
    } else if s.sock.paused {
      hide ResumeSocket;
      ResumeMisleadsIff(s, e);
    } else {
      Unchanged(s, s, e.highs);
    }
  }

  lemma ClientTells(s: Stream, e: Env, f: Frame)
    requires Inv(s, e) && !s.cleaned && s.ident.peer.Agent? && e.agentOpen
    ensures Tells(s, FromClient(s, e, f), e.highs)
  {
    hide ClientTalk, FarTalk, DataOf, Abort, SyncReadState, SyncBackpressure, Cleanup, WriteFar, LastControl,
         SameInputs;
    match f
    case ResMeta(_, _) => AbortDestroys(s.(took := s.took.(crossed := true)), e, false);
    case Pause => SyncReadTells(s.(flow := s.flow.(peerPausedRead := true)), e);
    case Resume => SyncReadTells(s.(flow := s.flow.(peerPausedRead := false)), e);
    case TcpData(c) => ClientDataTells(s, e, c);
    case TcpClose => CleanupDestroys(s.(took := s.took.(clientEnded := true)), e);
    case TcpOpenAck => ToAgentSteady(s.(awaitingClientAck := false), e, TcpConnectAck(ReplyTo(s.ident)));
    case TcpAbort => ClientAbortTells(s, e);
    case _ => Unchanged(s, s, e.highs);
  }

  lemma ClientAbortTells(s: Stream, e: Env)
    requires !s.cleaned
    ensures FromClient(s, e, TcpAbort).sock.destroyed
  {
    hide ClientTalk, FarTalk, DataOf, Abort;
    var t := s.(took := s.took.(clientEnded := true));
    AbortDestroys(t, e, false);
    AbortDestroys(ToAgent(t.(awaitingClientAck := false), e, ConnectRejected(ReplyTo(s.ident))), e, false);
  }

  lemma ClientDataTells(s: Stream, e: Env, c: Chunk)
    ensures Steady(s, FromClient(s, e, TcpData(c)))
  {
    hide LastControl, FromClient;
    SE.ClientDataFar(s, e, c);
    ClientDataSocket(s, e, c);
    LastControlAppend(s.sent.toFar, TcpData(c));
    assert s.sent.toFar + [] == s.sent.toFar;
  }

  lemma ClientDataSocket(s: Stream, e: Env, c: Chunk)
    ensures FromClient(s, e, TcpData(c)).sock.paused == s.sock.paused
  {
    hide ClientTalk, FarTalk, DataOf, SyncBackpressure, SameInputs, WriteFar;
    var t := s.(took := s.took.(received := s.took.received + [c]));
    WriteFarSocket(t, e, c);
    BackpressureTells(WriteFar(t, e, c).0.(flow := WriteFar(t, e, c).0.flow.(wsBackpressured := true)), e);
  }

  lemma WriteFarSocket(s: Stream, e: Env, c: Chunk)
    ensures WriteFar(s, e, c).0.sock.paused == s.sock.paused
  {
    hide ClientTalk, FarTalk, DataOf, SameInputs;
  }

  lemma AgentTells(s: Stream, e: Env, f: Frame)
    requires Inv(s, e) && !s.cleaned && s.ident.peer.Agent? && e.agentOpen
    ensures Tells(s, FromAgent(s, e, f), e.highs)
  {
    hide ClientTalk, FarTalk, DataOf, OnData, OnClose, OnError, SyncBackpressure, LastControl, SameInputs, AbortSocket,
         Core, LiveTalk, LastTalk;
    var d := s.(sock := s.sock.(destroyed := true, agentNotified := true), took := s.took.(farEnded := true));
    match f
    case TcpData(c) =>
      if !s.sock.paused && !s.sock.destroyed { DataTells(s.(took := s.took.(accepted := s.took.accepted + [c])), e, c, High(e.highs, 0)); }
      AbortSocketDestroys(s.(took := s.took.(accepted := s.took.accepted + [c])), e);
    case TcpClose => CleanupDestroys(d, e);
    case TcpAbort => ErrorDestroys(d, e);
    case Pause => BackpressureTells(s.(flow := s.flow.(agentPaused := true)), e);
    case Resume => BackpressureTells(s.(flow := s.flow.(agentPaused := false)), e);
    case _ =>
  }

  lemma AbortSocketDestroys(s: Stream, e: Env)
    requires s.ident.peer.Agent?
    ensures AbortSocket(s, e).sock.destroyed
  {
    hide ClientTalk, FarTalk, DataOf;
  }

  lemma BackpressureTells(s: Stream, e: Env)
    ensures SyncBackpressure(s, e).sent.toFar == s.sent.toFar && SyncBackpressure(s, e).sock == s.sock
    ensures OnDrain(s, e).sent.toFar == s.sent.toFar && OnDrain(s, e).sock == s.sock
  {
    hide ClientTalk, FarTalk, DataOf;
  }

  lemma LocalTells(s: Stream, e: Env, ev: Local)
    requires Inv(s, e) && Possible(s, e, ev) && s.ident.peer.Agent? && e.agentOpen
    ensures Tells(s, OnLocal(s, e, ev), e.highs)
  {
    hide ClientTalk, FarTalk, DataOf, SyncReadState, OnData, OnDrain, OnClose, OnError, LastControl, SameInputs,
         LiveTalk, LastTalk;
    if !s.cleaned {
      AbortDestroys(s, e, true);
      AbortDestroys(s, e, false);
    }
    match ev
    case SendDone =>
      if !s.cleaned { SyncReadTells(s.(flow := s.flow.(pendingSends := s.flow.pendingSends - 1, localPausedForWs := false)), e); }
    case FarSendDone => BackpressureTells(s.(sock := s.sock.(pendingDrain := false)), e);
    case QueuedClose => QueuedCloseTells(s, e);
    case _ => hide Abort;
  }

  lemma QueuedCloseTells(s: Stream, e: Env)
    requires s.sock.destroyed
    ensures OnClose(s.(sock := s.sock.(closeQueued := false)), e).sock.destroyed
  {
    hide ClientTalk, FarTalk, DataOf;
  }

  // ---------------------------------------------------------------------------
  // Runs
  // ---------------------------------------------------------------------------

  /** The latest step that sent the agent a RESUME on this stream released a chunk to a client over high water. */
  ghost predicate Misled(cfg: R.Config, script: RR.Script, h: nat) {
    |script| > 0 && RR.StreamOfRun(cfg, RR.Before(script), h) && RR.StreamOfRun(cfg, script, h)
    && var was, now := RR.StreamAfter(cfg, RR.Before(script), h), RR.StreamAfter(cfg, script, h);
       if SendsResume(was, now) then SomeHigh(RR.Last(script).0.highs, |was.sock.buffered|) else Misled(cfg, RR.Before(script), h)
  }

  /** The agent has been told the opposite of what holds. */
  predicate Contradicts(last: Option<Frame>, paused: bool) {
    last == Some(if paused then Resume else Pause)
  }

  predicate Reachable(r: R.Relay, t: Stream) {
    t.ident.peer.Agent? && t.ident.AgentWs() in r.reg.openAgents
  }

  /** Only an agent nobody ever opened a stream for can become OPEN. */
  lemma StaysReachable(r: R.Relay, cfg: R.Config, rd: R.Readings, ev: R.Event, h: nat)
    requires R.Enabled(r, cfg, rd, ev) && R.IsTcp(r.all, h)
    ensures Reachable(R.Step(r, cfg, rd, ev), R.TcpAt(r.all, h)) ==> Reachable(r, R.TcpAt(r.all, h))
  {
    hide R.FromClient, R.FromAgent, R.AbortAll, R.AcceptDirect, R.AcceptWeb, R.Settle, OnLocal, Possible, R.H.OnLocal,
         R.H.Possible;
    RegStays(r, cfg, rd, ev);
  }

  function Joining(ev: R.Event): set<nat> {
    if ev.AgentJoins? then {ev.a} else {}
  }

  lemma RegStays(r: R.Relay, cfg: R.Config, rd: R.Readings, ev: R.Event)
    requires R.Enabled(r, cfg, rd, ev)
    ensures R.Step(r, cfg, rd, ev).reg.openAgents <= r.reg.openAgents + Joining(ev)
  {
    hide FromClient, FromAgent, OnLocal, Possible, H.FromClient, H.OnLocal, H.Possible, CM.Resolve, TunnelId.Normalize,
         CM.LeastLoaded, Ids.Allocate, R.OpenTcp, R.Settled, R.AbortAll;
  }

  /** What any step of the relay tells the agent of a virtual socket that survives it. */
  lemma StepTells(r: R.Relay, cfg: R.Config, rd: R.Readings, ev: R.Event, h: nat)
    requires RI.Inv(r, cfg) && R.Enabled(r, cfg, rd, ev) && R.IsTcp(r.all, h) && Reachable(r, R.TcpAt(r.all, h))
    ensures var all' := R.Step(r, cfg, rd, ev).all;
            && R.IsTcp(all', h) && Tells(R.TcpAt(r.all, h), R.TcpAt(all', h), rd.highs)
            && (R.TcpAt(r.all, h).sock.destroyed ==> R.TcpAt(all', h).sock.destroyed)
  {
    hide RI.InvBut, R.Step, Inv, FromClient, FromAgent, OnLocal, Abort, Tells, Possible;
    RM.StepMoved(r, cfg, rd, ev, h);
    var t := r.all[h].t;
    RI.EntryAt(r, cfg, h);
    RI.TcpReady(r, cfg, rd, t);
    RM.RegisteredOf(r, cfg);
    MovedTells(r, cfg, rd, ev, h);
  }

  lemma MovedTells(r: R.Relay, cfg: R.Config, rd: R.Readings, ev: R.Event, h: nat)
    requires R.Enabled(r, cfg, rd, ev) && R.IsTcp(r.all, h) && Reachable(r, R.TcpAt(r.all, h))
    requires RI.Registered(r.all, r.streams) && Inv(R.TcpAt(r.all, h), R.EnvOf(r, cfg, rd, R.TcpAt(r.all, h).ident))
    ensures Tells(R.TcpAt(r.all, h), RM.Moved(r, cfg, rd, ev, h), rd.highs)
    ensures R.TcpAt(r.all, h).sock.destroyed ==> RM.Moved(r, cfg, rd, ev, h).sock.destroyed
  {
    hide Inv, FromClient, FromAgent, OnLocal, Abort, Tells, Possible, Grows, RI.Registered;
    var t := r.all[h].t;
    var e := R.EnvOf(r, cfg, rd, t.ident);
    Unchanged(t, t, rd.highs);
    Stays(t, e);
    RR.FromItsOwnLive(r, ev, h);
    match ev
    case ClientLeaves(_) => AbortTells(t, e, false);
    case AgentLeaves(_) => AbortTells(t, e, true);
    case ClientSends(_, _, f) => if RM.FromItsClient(r, ev, h) { ClientTells(t, e, f); }
    case AgentSends(_, _, f) => if RM.FromItsAgent(r, ev, h) { AgentTells(t, e, f); }
    case StreamEvent(g, l) => if g == h { LocalTells(t, e, l); }
    case _ =>
  }

  lemma AbortTells(t: Stream, e: Env, notify: bool)
    ensures Tells(t, Abort(t, e, notify), e.highs) && (t.sock.destroyed ==> Abort(t, e, notify).sock.destroyed)
  {
    hide ClientTalk, FarTalk, DataOf, AbortSocket, Cleanup, SameInputs;
    if !t.cleaned { AbortDestroys(t, e, notify); }
  }

  /** A destroyed socket stays one. */
  lemma Stays(t: Stream, e: Env)
    requires Inv(t, e)
    ensures forall f :: !t.cleaned && t.sock.destroyed ==> FromClient(t, e, f).sock.destroyed
    ensures forall f :: !t.cleaned && t.ident.peer.Agent? && t.sock.destroyed ==> FromAgent(t, e, f).sock.destroyed
    ensures forall ev :: Possible(t, e, ev) && t.sock.destroyed ==> OnLocal(t, e, ev).sock.destroyed
  {
    hide Inv, FromClient, FromAgent, OnLocal, Possible;
    forall f | !t.cleaned && t.sock.destroyed ensures FromClient(t, e, f).sock.destroyed { FromClientInv(t, e, f); }
    forall f | !t.cleaned && t.ident.peer.Agent? && t.sock.destroyed ensures FromAgent(t, e, f).sock.destroyed { FromAgentInv(t, e, f); }
    forall ev | Possible(t, e, ev) && t.sock.destroyed ensures OnLocal(t, e, ev).sock.destroyed { OnLocalInv(t, e, ev); }
  }

  lemma NothingTold()
    ensures LastControl([]) == None && forall paused :: !Contradicts(None, paused)
  {
  }

  lemma SameIdent(r: R.Relay, cfg: R.Config, rd: R.Readings, ev: R.Event, h: nat)
    requires RI.Inv(r, cfg) && R.Enabled(r, cfg, rd, ev) && R.IsTcp(r.all, h)
    ensures RM.Moved(r, cfg, rd, ev, h).ident == R.TcpAt(r.all, h).ident
  {
    hide RI.InvBut, Inv, FromClient, FromAgent, OnLocal, Possible, Abort;
    var t := r.all[h].t;
    var e := R.EnvOf(r, cfg, rd, t.ident);
    RI.EntryAt(r, cfg, h);
    RI.TcpReady(r, cfg, rd, t);
    RM.RegisteredOf(r, cfg);
    RR.FromItsOwnLive(r, ev, h);
    match ev
    case ClientLeaves(_) => AbortIdent(t, e, false);
    case AgentLeaves(_) => AbortIdent(t, e, true);
    case ClientSends(_, _, f) => if RM.FromItsClient(r, ev, h) { FromClientInv(t, e, f); }
    case AgentSends(_, _, f) => if RM.FromItsAgent(r, ev, h) { FromAgentInv(t, e, f); }
    case StreamEvent(g, l) => if g == h { OnLocalInv(t, e, l); }
    case _ =>
  }

  lemma AbortIdent(t: Stream, e: Env, notify: bool)
    ensures Abort(t, e, notify).ident == t.ident
  {
    hide ClientTalk, FarTalk, DataOf, AbortSocket, Cleanup;
  }

  /** What the agent was told last contradicts the socket exactly if it has been misled. */
  predicate Knows(t: Stream, misled: bool) {
    && (Contradicts(LastControl(t.sent.toFar), t.sock.paused) <==> misled)
    && (LastControl(t.sent.toFar).None? ==> !t.sock.paused)
    && (LastControl(t.sent.toFar) == Some(Pause) ==> t.sock.paused)
  }

  lemma TellsKnows(t: Stream, t': Stream, highs: seq<bool>, misled: bool)
    requires Tells(t, t', highs) && !t'.sock.destroyed && Knows(t, misled)
    ensures Knows(t', if SendsResume(t, t') then SomeHigh(highs, |t.sock.buffered|) else misled)
  {
    hide LastControl, SomeHigh;
  }

  /** The last step of a run, for a stream that survived it. */
  lemma LastStep(cfg: R.Config, script: RR.Script, h: nat)
    requires script != [] && RR.StreamOfRun(cfg, script, h) && !RR.StreamAfter(cfg, script, h).sock.destroyed
    requires Reachable(RR.After(cfg, script), RR.StreamAfter(cfg, script, h))
    ensures var was, now := RR.StreamAfter(cfg, RR.Before(script), h), RR.StreamAfter(cfg, script, h);
            && RR.Run(cfg, RR.Before(script)).Some?
            && if RR.StreamOfRun(cfg, RR.Before(script), h)
               then Reachable(RR.After(cfg, RR.Before(script)), was) && !was.sock.destroyed && Tells(was, now, RR.Last(script).0.highs)
               else now.sent.toFar == [] && !now.sock.paused
  {
    hide R.Step, R.Enabled, Tells, RM.Moved;
    var r := RR.After(cfg, RR.Before(script));
    var (rd, ev) := script[|script| - 1];
    RR.RunInv(cfg, RR.Before(script));
    if R.IsTcp(r.all, h) {
      RM.StepMoved(r, cfg, rd, ev, h);
      SameIdent(r, cfg, rd, ev, h);
      StaysReachable(r, cfg, rd, ev, h);
      StepTells(r, cfg, rd, ev, h);
    } else if h < |r.all| {
      RR.WebStays(r, cfg, rd, ev, h);
    } else {
      RM.StepAdds(r, cfg, rd, ev, h);
    }
  }

  /**
   * In every run, while the agent's WebSocket is OPEN and the virtual socket lives: the last PAUSE or RESUME
   * the agent was sent contradicts the state of the socket if and only if the latest resume released a chunk
   * that found the client's WebSocket over its high-water mark. No other step ever makes them disagree: a
   * PAUSE sent last is never wrong, and an agent that was told neither has a socket that is not paused.
   */
  lemma {:induction false} AgentIsMisledIff(cfg: R.Config, script: RR.Script, h: nat)
    requires RR.StreamOfRun(cfg, script, h) && !RR.StreamAfter(cfg, script, h).sock.destroyed
    requires Reachable(RR.After(cfg, script), RR.StreamAfter(cfg, script, h))
    ensures var t := RR.StreamAfter(cfg, script, h);
            && (Contradicts(LastControl(t.sent.toFar), t.sock.paused) <==> Misled(cfg, script, h))
            && (LastControl(t.sent.toFar).None? ==> !t.sock.paused)
            && (LastControl(t.sent.toFar) == Some(Pause) ==> t.sock.paused)
  {
    if |script| > 0 {
      hide LastControl, Contradicts, Tells, Reachable, RR.Run;
      var was, now := RR.StreamAfter(cfg, RR.Before(script), h), RR.StreamAfter(cfg, script, h);
      LastStep(cfg, script, h);
      if RR.StreamOfRun(cfg, RR.Before(script), h) {
        AgentIsMisledIff(cfg, RR.Before(script), h);
        TellsKnows(was, now, RR.Last(script).0.highs, Misled(cfg, RR.Before(script), h));
      } else {
        NothingTold();
      }
    }
  }
}
