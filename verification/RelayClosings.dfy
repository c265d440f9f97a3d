/**
 * What a TCP_CLOSE to the tunnel client means on an agent's stream: the agent ended the stream, or its
 * virtual socket overflowed, and then the client lacks at least the chunk that did not fit.
 */
module RelayClosings {
  import opened Frames
  import opened RelayStream
  import opened RelayStreamInvariant
  import R = Relay
  import RI = RelayInvariant
  import RM = RelayMoves
  import RR = RelayRuns
  import RC = RelayControl
  import SE = RelayStreamEffects

  predicate ToldClosed(s: Stream) {
    ClientTalk(s.sent.toClient) == Ended(true)
  }

  /** Some chunk taken in from the far side was not forwarded. */
  predicate Short(s: Stream) {
    |DataOf(s.sent.toClient)| < |s.took.accepted|
  }

  /** Why the socket of a registered stream is gone, and why the client was told TCP_CLOSE. */
  predicate Explained(s: Stream) {
    s.ident.peer.Agent? ==>
      && (!s.cleaned && s.sock.destroyed ==> Short(s))
      && (ToldClosed(s) ==> s.took.farEnded || Short(s))
  }

  // ---------------------------------------------------------------------------
  // Everything but the `close` listener tells the client no TCP_CLOSE
  // ---------------------------------------------------------------------------

  lemma CleanupSays(s: Stream, e: Env)
    ensures Cleanup(s, e).sent.toClient == s.sent.toClient
  {
    hide ClientTalk, FarTalk, DataOf;
  }

  lemma AbortSays(s: Stream, e: Env, notify: bool)
    ensures ToldClosed(Abort(s, e, notify)) ==> ToldClosed(s)
  {
    hide ClientTalk, FarTalk, DataOf, Cleanup;
    if !s.cleaned {
      var a := AbortSocket(s, e);
      CleanupSays(if notify && e.wsOpen && !a.abortSent then ToClient(a.(abortSent := true), e, TcpAbort) else a, e);
    }
  }

  lemma OnDataSays(s: Stream, e: Env, c: Chunk, high: bool)
    ensures ToldClosed(OnData(s, e, c, high)) ==> ToldClosed(s)
    ensures OnData(s, e, c, high).sock.destroyed ==> s.sock.destroyed || OnData(s, e, c, high).cleaned
  {
    hide ClientTalk, FarTalk, DataOf, Abort, SameInputs;
    AbortSays(s, e, true);
    SE.AbortDone(s, e, true);
  }

  lemma {:induction false} EmitAllSays(s: Stream, e: Env, chunks: seq<Chunk>, highs: seq<bool>)
    ensures ToldClosed(EmitAll(s, e, chunks, highs)) ==> ToldClosed(s)
    ensures EmitAll(s, e, chunks, highs).sock.destroyed ==> s.sock.destroyed || EmitAll(s, e, chunks, highs).cleaned
    ensures s.cleaned ==> EmitAll(s, e, chunks, highs).cleaned
    decreases |chunks|
  {
    hide ClientTalk, FarTalk, DataOf, OnData, ToldClosed, SameInputs;
    if |chunks| > 0 {
      OnDataSays(s, e, chunks[0], High(highs, 0));
      OnDataCleaned(s, e, chunks[0], High(highs, 0));
      EmitAllSays(OnData(s, e, chunks[0], High(highs, 0)), e, chunks[1..], if |highs| == 0 then [] else highs[1..]);
    }
  }

  lemma OnDataCleaned(s: Stream, e: Env, c: Chunk, high: bool)
    ensures s.cleaned ==> OnData(s, e, c, high) == s
  {
    hide ClientTalk, FarTalk, DataOf, Abort;
  }

  lemma SyncReadSays(s: Stream, e: Env)
    ensures ToldClosed(SyncReadState(s, e)) ==> ToldClosed(s)
    ensures s.sock.destroyed ==> SyncReadState(s, e) == s
    ensures SyncReadState(s, e).sock.destroyed ==> s.sock.destroyed || SyncReadState(s, e).cleaned
  {
    hide ClientTalk, FarTalk, DataOf, EmitAll, SameInputs;
    EmitAllSays(Unbuffered(s), e, s.sock.buffered, e.highs);
  }

  lemma BackpressureSays(s: Stream, e: Env)
    ensures ToldClosed(SyncBackpressure(s, e)) ==> ToldClosed(s)
    ensures DataOf(SyncBackpressure(s, e).sent.toClient) == DataOf(s.sent.toClient)
    ensures SyncBackpressure(s, e).sock == s.sock && SyncBackpressure(s, e).cleaned == s.cleaned
  {
    hide ClientTalk, FarTalk, DataOf;
    assert DataOf(s.sent.toClient) + [] == DataOf(s.sent.toClient);
  }

  // ---------------------------------------------------------------------------
  // One step of a stream
  // ---------------------------------------------------------------------------

  lemma ClientAbortSays(s: Stream, e: Env)
    ensures ToldClosed(FromClient(s, e, TcpAbort)) ==> ToldClosed(s)
  {
    hide ClientTalk, FarTalk, DataOf, Abort;
    var t := s.(took := s.took.(clientEnded := true));
    AbortSays(t, e, false);
    AbortSays(ToAgent(t.(awaitingClientAck := false), e, ConnectRejected(ReplyTo(s.ident))), e, false);
  }

  lemma ClientDataSays(s: Stream, e: Env, c: Chunk)
    ensures var t := FromClient(s, e, TcpData(c));
            (ToldClosed(t) ==> ToldClosed(s)) && t.sock.destroyed == s.sock.destroyed && (s.sock.destroyed ==> t == s)
  {
    hide ClientTalk, FarTalk, DataOf, SyncBackpressure, WriteFar, SameInputs;
    var t := s.(took := s.took.(received := s.took.received + [c]));
    WriteFarSays(t, e, c);
    BackpressureSays(WriteFar(t, e, c).0.(flow := WriteFar(t, e, c).0.flow.(wsBackpressured := true)), e);
  }

  lemma WriteFarSays(s: Stream, e: Env, c: Chunk)
    ensures WriteFar(s, e, c).0.sent.toClient == s.sent.toClient && WriteFar(s, e, c).0.sock.destroyed == s.sock.destroyed
  {
    hide ClientTalk, FarTalk, DataOf, SameInputs;
  }

  /** A frame from the client destroys no socket of a stream it leaves registered, and adds no TCP_CLOSE for it. */
  lemma FromClientSays(s: Stream, e: Env, f: Frame)
    requires !s.cleaned
    ensures var t := FromClient(s, e, f);
            && (ToldClosed(t) ==> ToldClosed(s))
            && (!t.cleaned && t.sock.destroyed ==> s.sock.destroyed && t.sent.toClient == s.sent.toClient && t.took.accepted == s.took.accepted)
  {
    hide ClientTalk, FarTalk, DataOf, Abort, SyncReadState, SyncBackpressure, Cleanup, WriteFar, ToldClosed, SameInputs;
    match f
    case ResMeta(_, _) =>
      AbortSays(s.(took := s.took.(crossed := true)), e, false);
      SE.AbortDone(s.(took := s.took.(crossed := true)), e, false);
      SameLog(s, s.(took := s.took.(crossed := true)));
    case ResData(_) => SameLog(s, CrossModeCleanup(s));
    case ResEnd => SameLog(s, CrossModeCleanup(s));
    case ResAbort => SameLog(s, CrossModeCleanup(s));
    case Pause =>
      SyncReadSays(s.(flow := s.flow.(peerPausedRead := true)), e);
      SameLog(s, s.(flow := s.flow.(peerPausedRead := true)));
    case Resume =>
      SyncReadSays(s.(flow := s.flow.(peerPausedRead := false)), e);
      SameLog(s, s.(flow := s.flow.(peerPausedRead := false)));
    case TcpData(c) => hide FromClient; ClientDataSays(s, e, c);
    case TcpClose =>
      CleanupSays(s.(took := s.took.(clientEnded := true)), e);
      SE.CleanupDone(s.(took := s.took.(clientEnded := true)), e);
      SameLog(s, Cleanup(s.(took := s.took.(clientEnded := true)), e));
    case TcpOpenAck => SameLog(s, FromClient(s, e, TcpOpenAck));
    case TcpAbort => ClientAbortSays(s, e); SE.ClientAbortTakes(s, e);
    case _ =>
  }

  lemma SameLog(s: Stream, t: Stream)
    ensures t.sent.toClient == s.sent.toClient ==> ToldClosed(t) == ToldClosed(s)
  {
    hide ClientTalk;
  }

  lemma FromClientExplained(s: Stream, e: Env, f: Frame)
    requires Inv(s, e) && !s.cleaned && Explained(s)
    ensures Explained(FromClient(s, e, f))
  {
    hide FromClient, ClientTalk, FarTalk, DataOf, Core;
    FromClientInv(s, e, f);
    FromClientSays(s, e, f);
  }

  /** A chunk from the agent destroys the socket of a stream it leaves registered only if it does not fit, and then it is lost. */
  lemma AgentDataExplained(s: Stream, e: Env, c: Chunk)
    requires Inv(s, e) && !s.cleaned && !s.awaitingClientAck && s.ident.peer.Agent? && Explained(s)
    ensures Explained(PushInbound(s, e, c))
  {
    hide ClientTalk, FarTalk, DataOf, TotalBytes, OnData, ToAgent, SameInputs, ReadExact;
    PushInboundInv(s, e, c);
    var t := s.(took := s.took.(accepted := s.took.accepted + [c]));
    OnDataSays(t, e, c, High(e.highs, 0));
    if !s.sock.destroyed { OverflowIsShort(s, e, c); }
  }

  /** The chunk that overflows the buffer was taken in, and is not forwarded. */
  lemma OverflowIsShort(s: Stream, e: Env, c: Chunk)
    requires Inv(s, e) && !s.cleaned && !s.sock.destroyed
    ensures Short(AbortSocket(s.(took := s.took.(accepted := s.took.accepted + [c])), e))
  {
    hide ClientTalk, FarTalk, DataOf, TotalBytes, LiveTalk;
  }

  lemma FromAgentExplained(s: Stream, e: Env, f: Frame)
    requires Inv(s, e) && !s.cleaned && s.ident.peer.Agent? && Explained(s)
    ensures Explained(FromAgent(s, e, f))
  {
    hide ClientTalk, FarTalk, DataOf, OnClose, OnError, SyncBackpressure, PushInbound, SameInputs, Core, TotalBytes;
    FromAgentInv(s, e, f);
    if !s.awaitingClientAck {
      match f
      case TcpData(c) => AgentDataExplained(s, e, c);
      case TcpClose => if !s.sock.destroyed { EndExplained(s, e); }
      case TcpAbort => if !s.sock.destroyed { EndExplained(s, e); }
      case Pause => BackpressureSays(s.(flow := s.flow.(agentPaused := true)), e);
      case Resume => BackpressureSays(s.(flow := s.flow.(agentPaused := false)), e);
      case _ =>
    }
  }

  lemma EndExplained(s: Stream, e: Env)
    requires !s.cleaned
    ensures var d := s.(sock := s.sock.(destroyed := true, agentNotified := true), took := s.took.(farEnded := true));
            && OnClose(d, e).cleaned && OnClose(d, e).took.farEnded && OnError(d, e).cleaned && OnError(d, e).took.farEnded
  {
    hide ClientTalk, FarTalk, DataOf, Abort, Cleanup;
    var d := s.(sock := s.sock.(destroyed := true, agentNotified := true), took := s.took.(farEnded := true));
    SE.CleanupDone(ToClient(d, e, TcpClose), e);
    SE.AbortDone(ToClient(d, e, TcpAbort), e, false);
  }

  /** The queued `close` tells the client TCP_CLOSE although the stream is short. */
  lemma QueuedCloseExplained(s: Stream, e: Env)
    requires !s.cleaned && Short(s)
    ensures var t := OnClose(s.(sock := s.sock.(closeQueued := false)), e); t.cleaned && Short(t)
  {
    hide ClientTalk, FarTalk, DataOf, Cleanup;
    var d := s.(sock := s.sock.(closeQueued := false));
    var f := ToClient(d, e, TcpClose);
    SE.CleanupDone(f, e);
    CleanupSays(f, e);
    assert DataOf(f.sent.toClient) == DataOf(s.sent.toClient) + [];
  }

  lemma LiveLocalExplained(s: Stream, e: Env, ev: Local)
    requires Inv(s, e) && Possible(s, e, ev) && !s.cleaned && s.ident.peer.Agent? && Explained(s)
    ensures Explained(OnLocal(s, e, ev))
  {
    hide ClientTalk, FarTalk, DataOf, Abort, SyncReadState, SyncBackpressure, OnClose, SameInputs, TotalBytes,
         FarWordOk, FifoDown, FifoUp, BufferExact;
    OnLocalInv(s, e, ev);
    AbortSays(s, e, true);
    AbortSays(s, e, false);
    SE.AbortDone(s, e, true);
    SE.AbortDone(s, e, false);
    match ev
    case SendDone =>
      var d := s.(flow := s.flow.(pendingSends := s.flow.pendingSends - 1));
      SyncReadSays(d.(flow := d.flow.(localPausedForWs := false)), e);
    case FarSendDone => BackpressureSays(s.(sock := s.sock.(pendingDrain := false), flow := s.flow.(wsBackpressured := false)), e);
    case QueuedClose => QueuedCloseExplained(s, e);
    case _ =>
  }

  /** A stream that is gone is told nothing more. */
  lemma GoneExplained(s: Stream, t: Stream)
    requires s.cleaned && Explained(s) && SE.Unprompted(s, t)
    ensures Explained(t)
  {
    hide ClientTalk, DataOf, SE.FarControl;
  }

  // ---------------------------------------------------------------------------
  // Every step of the relay
  // ---------------------------------------------------------------------------

  lemma AbortExplained(s: Stream, e: Env, notify: bool)
    requires Inv(s, e) && Explained(s) && s.ident.peer.Agent?
    ensures Explained(Abort(s, e, notify))
  {
    hide ClientTalk, FarTalk, DataOf, Core;
    AbortSays(s, e, notify);
    if s.cleaned {
    } else {
      hide Abort;
      SE.AbortDone(s, e, notify);
    }
  }

  lemma MovedExplained(r: R.Relay, cfg: R.Config, rd: R.Readings, ev: R.Event, h: nat)
    requires R.Enabled(r, cfg, rd, ev) && R.IsTcp(r.all, h) && RI.Registered(r.all, r.streams)
    requires var t := R.TcpAt(r.all, h); t.ident.peer.Agent? && Inv(t, R.EnvOf(r, cfg, rd, t.ident)) && Explained(t)
    ensures Explained(RM.Moved(r, cfg, rd, ev, h))
  {
    hide Inv, FromClient, FromAgent, OnLocal, Abort, Explained, Possible, RI.Registered, SE.Unprompted;
    var t := r.all[h].t;
    var e := R.EnvOf(r, cfg, rd, t.ident);
    RR.FromItsOwnLive(r, ev, h);
    match ev
    case ClientLeaves(_) => AbortExplained(t, e, false);
    case AgentLeaves(_) => AbortExplained(t, e, true);
    case ClientSends(_, _, f) => if RM.FromItsClient(r, ev, h) { FromClientExplained(t, e, f); }
    case AgentSends(_, _, f) => if RM.FromItsAgent(r, ev, h) { FromAgentExplained(t, e, f); }
    case StreamEvent(g, l) =>
      if g == h {
        if t.cleaned {
          SE.OnLocalUnprompted(t, e, l);
          GoneExplained(t, OnLocal(t, e, l));
        } else {
          LiveLocalExplained(t, e, l);
        }
      }
    case _ =>
  }

  /** Every agent's stream of the relay is explained. */
  ghost predicate AllExplained(all: seq<R.Entry>) {
    forall h :: 0 <= h < |all| && all[h].Tcp? ==> Explained(all[h].t)
  }

  lemma StepExplained(r: R.Relay, cfg: R.Config, rd: R.Readings, ev: R.Event)
    requires RI.Inv(r, cfg) && R.Enabled(r, cfg, rd, ev) && AllExplained(r.all)
    ensures AllExplained(R.Step(r, cfg, rd, ev).all)
  {
    hide RI.InvBut, R.Step, R.Enabled, Inv, RM.Moved;
    var r' := R.Step(r, cfg, rd, ev);
    forall h | 0 <= h < |r'.all| && r'.all[h].Tcp? ensures Explained(r'.all[h].t) {
      if h >= |r.all| {
        RM.StepAdds(r, cfg, rd, ev, h);
      } else if r.all[h].Tcp? {
        RM.StepMoved(r, cfg, rd, ev, h);
        OneExplained(r, cfg, rd, ev, h);
      } else {
        RR.WebStays(r, cfg, rd, ev, h);
      }
    }
  }

  lemma OneExplained(r: R.Relay, cfg: R.Config, rd: R.Readings, ev: R.Event, h: nat)
    requires RI.Inv(r, cfg) && R.Enabled(r, cfg, rd, ev) && R.IsTcp(r.all, h) && Explained(R.TcpAt(r.all, h))
    ensures Explained(RM.Moved(r, cfg, rd, ev, h))
  {
    hide RI.InvBut, Inv, RM.Moved, R.Enabled;
    RI.EntryAt(r, cfg, h);
    RI.TcpReady(r, cfg, rd, r.all[h].t);
    RM.RegisteredOf(r, cfg);
    RC.SameIdent(r, cfg, rd, ev, h);
    if r.all[h].t.ident.peer.Agent? { MovedExplained(r, cfg, rd, ev, h); }
  }

  /**
   * In every run of the relay: if the client of an agent's stream was told TCP_CLOSE, the agent ended the
   * stream, or a chunk taken in from it was never forwarded.
   */
  lemma {:induction false} RunExplained(cfg: R.Config, script: RR.Script)
    requires RR.Run(cfg, script).Some?
    ensures AllExplained(RR.After(cfg, script).all)
  {
    hide R.Step, R.Enabled, Explained;
    if |script| > 0 {
      var n := |script| - 1;
      RR.RunInv(cfg, script[..n]);
      RunExplained(cfg, script[..n]);
      StepExplained(RR.After(cfg, script[..n]), cfg, script[n].0, script[n].1);
    }
  }
}
