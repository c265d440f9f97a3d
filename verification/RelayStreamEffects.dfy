/**
 * How a step of a relay TCP stream changes what it has taken in and what it has sent to the far side:
 * the facts the end-to-end argument needs beside the invariant.
 */
module RelayStreamEffects {
  import opened Frames
  import opened RelayStream
  import opened RelayStreamInvariant

  predicate Control(f: Frame) {
    f.Pause? || f.Resume? || f.TcpClose? || f.TcpAbort?
  }

  /** Only PAUSE, RESUME, TCP_CLOSE and TCP_ABORT were added for the far side. */
  ghost predicate FarControl(s: Stream, t: Stream) {
    && s.sent.toFar <= t.sent.toFar
    && forall i :: |s.sent.toFar| <= i < |t.sent.toFar| ==> Control(t.sent.toFar[i])
  }

  /** What a step may do to a stream when it delivers no frame to it. */
  ghost predicate Unprompted(s: Stream, t: Stream) {
    && Grows(s, t)
    && t.awaitingClientAck == s.awaitingClientAck
    && t.took.received == s.took.received && t.took.clientEnded == s.took.clientEnded && t.took.crossed == s.took.crossed
    && (s.ident.peer.Agent? ==> t.took == s.took)
    && FarControl(s, t)
    && (s.cleaned ==> t.sent == s.sent && t.sock.buffered == s.sock.buffered)
  }

  lemma ToAgentFar(s: Stream, e: Env, f: Frame)
    requires Control(f)
    ensures FarControl(s, ToAgent(s, e, f))
  {
    hide ClientTalk, FarTalk, DataOf;
  }

  lemma CleanupFar(s: Stream, e: Env)
    ensures FarControl(s, Cleanup(s, e))
  {
    hide ClientTalk, FarTalk, DataOf;
  }

  lemma AbortFar(s: Stream, e: Env, notify: bool)
    ensures FarControl(s, Abort(s, e, notify))
  {
    hide ClientTalk, FarTalk, DataOf, DestroySocket, Cleanup;
    if !s.cleaned {
      var a := AbortSocket(s, e);
      assert FarControl(s, a);
      var b := if notify && e.wsOpen && !a.abortSent then ToClient(a.(abortSent := true), e, TcpAbort) else a;
      CleanupFar(b, e);
    }
  }

  lemma EndFar(s: Stream, e: Env)
    ensures FarControl(s, OnClose(s, e)) && FarControl(s, OnError(s, e))
  {
    hide ClientTalk, FarTalk, DataOf, Cleanup, Abort;
    if !s.cleaned {
      CleanupFar(ToClient(s, e, TcpClose), e);
      AbortFar(ToClient(s, e, TcpAbort), e, false);
    }
  }

  lemma OnDataFar(s: Stream, e: Env, c: Chunk, high: bool)
    ensures FarControl(s, OnData(s, e, c, high))
  {
    hide ClientTalk, FarTalk, DataOf, Abort;
    AbortFar(s, e, true);
  }

  lemma FarControlTransitive(s: Stream, t: Stream, u: Stream)
    requires FarControl(s, t) && FarControl(t, u)
    ensures FarControl(s, u)
  {
  }

  lemma {:induction false} EmitAllFar(s: Stream, e: Env, chunks: seq<Chunk>, highs: seq<bool>)
    ensures FarControl(s, EmitAll(s, e, chunks, highs))
    decreases |chunks|
  {
    hide ClientTalk, FarTalk, DataOf, OnData;
    if |chunks| > 0 {
      var t := OnData(s, e, chunks[0], High(highs, 0));
      var rest := if |highs| == 0 then [] else highs[1..];
      OnDataFar(s, e, chunks[0], High(highs, 0));
      EmitAllFar(t, e, chunks[1..], rest);
      FarControlTransitive(s, t, EmitAll(t, e, chunks[1..], rest));
    }
  }

  lemma ResumeFar(s: Stream, e: Env)
    ensures FarControl(s, ResumeSocket(s, e))
  {
    hide ClientTalk, FarTalk, DataOf, EmitAll, ToAgent;
    if s.sock.paused {
      EmitAllFar(Unbuffered(s), e, s.sock.buffered, e.highs);
      var t := EmitAll(Unbuffered(s), e, s.sock.buffered, e.highs);
      ToAgentFar(t, e, Resume);
      FarControlTransitive(s, t, ToAgent(t, e, Resume));
    }
  }

  lemma SyncReadStateFar(s: Stream, e: Env)
    ensures FarControl(s, SyncReadState(s, e))
  {
    hide ClientTalk, FarTalk, DataOf, EmitAll, ToAgent, ResumeSocket;
    ResumeFar(s, e);
    ToAgentFar(s.(sock := s.sock.(paused := true)), e, Pause);
  }

  lemma OnDrainFar(s: Stream, e: Env)
    ensures OnDrain(s, e).sent.toFar == s.sent.toFar && SyncBackpressure(s, e).sent.toFar == s.sent.toFar
  {
    hide ClientTalk, FarTalk, DataOf;
  }

  // ---------------------------------------------------------------------------
  // Steps that deliver no frame
  // ---------------------------------------------------------------------------

  lemma AbortUnprompted(s: Stream, e: Env, notify: bool)
    requires Inv(s, e) && (notify || !e.wsOpen)
    ensures Unprompted(s, Abort(s, e, notify))
  {
    hide InvWith, Grows, FarControl, ClientTalk, FarTalk, DataOf;
    TeardownInv(s, e, notify);
    AbortFar(s, e, notify);
  }

  /** A stream that is gone says nothing more, and what is in its buffer stays there. */
  lemma GoneIsSilent(s: Stream, e: Env, ev: Local)
    requires Possible(s, e, ev) && s.cleaned
    ensures OnLocal(s, e, ev).sent == s.sent && OnLocal(s, e, ev).sock.buffered == s.sock.buffered
  {
    hide ClientTalk, FarTalk, DataOf, EmitAll;
  }

  lemma OnLocalFar(s: Stream, e: Env, ev: Local)
    requires Possible(s, e, ev)
    ensures FarControl(s, OnLocal(s, e, ev))
  {
    hide ClientTalk, FarTalk, DataOf, Abort, SyncReadState, OnData, OnDrain, OnClose, OnError;
    match ev
    case SendDone =>
      SyncReadStateFar(s.(flow := s.flow.(pendingSends := s.flow.pendingSends - 1, localPausedForWs := false)), e);
    case FarSendDone => OnDrainFar(s.(sock := s.sock.(pendingDrain := false)), e);
    case QueuedClose => EndFar(s.(sock := s.sock.(closeQueued := false)), e);
    case ExternalData(c) => OnDataFar(if s.cleaned then s else s.(took := s.took.(accepted := s.took.accepted + [c])), e, c, High(e.highs, 0));
    case ExternalDrain => OnDrainFar(s, e);
    case ExternalClose => EndFar(s.(sock := s.sock.(destroyed := true), took := s.took.(farEnded := true)), e);
    case ExternalError => EndFar(s.(sock := s.sock.(destroyed := true), took := s.took.(farEnded := true)), e);
    case _ => AbortFar(s, e, true); AbortFar(s, e, false);
  }

  lemma OnLocalUnprompted(s: Stream, e: Env, ev: Local)
    requires Inv(s, e) && Possible(s, e, ev)
    ensures Unprompted(s, OnLocal(s, e, ev))
  {
    hide InvWith, Grows, FarControl, ClientTalk, FarTalk, DataOf, Abort, SyncReadState, OnData, OnDrain, OnClose,
         OnError;
    OnLocalInv(s, e, ev);
    OnLocalFar(s, e, ev);
    if s.cleaned { GoneIsSilent(s, e, ev); }
  }

  // ---------------------------------------------------------------------------
  // Frames from the tunnel client
  // ---------------------------------------------------------------------------

  /** A frame a TCP endpoint may send; everything else is HTTP-mode. */
  predicate TcpMode(f: Frame) {
    f.TcpData? || f.TcpClose? || f.TcpAbort? || f.TcpOpenAck? || f.Pause? || f.Resume?
  }

  lemma ClientAbortTakes(s: Stream, e: Env)
    ensures var t := FromClient(s, e, TcpAbort);
            t.took == s.took.(clientEnded := true) && t.cleaned && (t.awaitingClientAck ==> s.awaitingClientAck)
  {
    hide ClientTalk, FarTalk, DataOf, Abort, ToAgent;
    var t := s.(took := s.took.(clientEnded := true));
    AbortDone(t, e, false);
    AbortDone(ToAgent(t.(awaitingClientAck := false), e, ConnectRejected(ReplyTo(s.ident))), e, false);
  }

  lemma ClientDataTakes(s: Stream, e: Env, c: Chunk)
    ensures var t := FromClient(s, e, TcpData(c));
            t.took == s.took.(received := s.took.received + (if s.sock.destroyed then [] else [c])) && t.awaitingClientAck == s.awaitingClientAck
  {
    hide ClientTalk, FarTalk, DataOf, WriteFar, SyncBackpressure;
  }

  /** What a frame from the tunnel client makes the stream take in. */
  lemma FromClientTakes(s: Stream, e: Env, f: Frame)
    requires !s.cleaned && TcpMode(f)
    ensures var t := FromClient(s, e, f);
            && t.took == s.took.(received := t.took.received, clientEnded := s.took.clientEnded || f.TcpClose? || f.TcpAbort?)
            && t.took.received == s.took.received + (if s.sock.destroyed then [] else Carried(f))
            && (t.awaitingClientAck ==> s.awaitingClientAck && !f.TcpOpenAck?)
            && (s.awaitingClientAck && !t.awaitingClientAck ==> f.TcpOpenAck? || f.TcpAbort?)
            && (f.TcpClose? || f.TcpAbort? ==> t.cleaned)
  {
    if f.TcpAbort? {
      hide FromClient;
      ClientAbortTakes(s, e);
    } else if f.TcpData? {
      hide FromClient;
      ClientDataTakes(s, e, f.chunk);
    } else {
      hide ClientTalk, FarTalk, DataOf, Abort, SyncReadState, SyncBackpressure, WriteFar, Cleanup, ToAgent;
      if f.TcpClose? { CleanupDone(s.(took := s.took.(clientEnded := true)), e); }
    }
  }

  /** To a socket that is already destroyed, a frame of the client adds no TCP_CLOSE. */
  lemma DestroyedStaysUnclosed(s: Stream, e: Env, f: Frame)
    requires TcpMode(f) && s.sock.destroyed && !s.awaitingClientAck
    ensures FromClient(s, e, f).sent.toFar == s.sent.toFar
  {
    hide ClientTalk, FarTalk, DataOf, SyncBackpressure, WriteFar;
  }

  lemma CleanupDone(s: Stream, e: Env)
    ensures Cleanup(s, e).cleaned
  {
    hide ClientTalk, FarTalk, DataOf;
  }

  lemma AbortDone(s: Stream, e: Env, notify: bool)
    ensures Abort(s, e, notify).cleaned
  {
    hide ClientTalk, FarTalk, DataOf, AbortSocket, Cleanup;
    if !s.cleaned {
      var a := AbortSocket(s, e);
      CleanupDone(if notify && e.wsOpen && !a.abortSent then ToClient(a.(abortSent := true), e, TcpAbort) else a, e);
    }
  }

  /** The connect-level reply the stream owes its agent, if this frame settles it. */
  function Settling(s: Stream, e: Env, f: Frame): seq<Frame> {
    if !s.awaitingClientAck || !s.ident.peer.Agent? || !e.agentOpen then []
    else if f.TcpOpenAck? then [TcpConnectAck(ReplyTo(s.ident))]
    else if f.TcpAbort? then [ConnectRejected(ReplyTo(s.ident))]
    else []
  }

  /** The payload that goes on to the far side. */
  function Relayed(s: Stream, e: Env, f: Frame): seq<Frame> {
    if f.TcpData? && !s.sock.destroyed && (s.ident.peer.External? || e.agentOpen) then [f] else []
  }

  lemma WriteFarSends(s: Stream, e: Env, c: Chunk)
    ensures WriteFar(s, e, c).0.sent.toFar == s.sent.toFar + Relayed(s, e, TcpData(c))
  {
    hide ClientTalk, FarTalk, DataOf, SameInputs;
  }

  lemma ClientDataFar(s: Stream, e: Env, c: Chunk)
    ensures FromClient(s, e, TcpData(c)).sent.toFar == s.sent.toFar + Relayed(s, e, TcpData(c))
  {
    hide ClientTalk, FarTalk, DataOf, SyncBackpressure, SameInputs, WriteFar;
    var t := s.(took := s.took.(received := s.took.received + [c]));
    WriteFarSends(t, e, c);
    OnDrainFar(WriteFar(t, e, c).0.(flow := WriteFar(t, e, c).0.flow.(wsBackpressured := true)), e);
  }

  lemma ClientAbortFar(s: Stream, e: Env)
    requires s.awaitingClientAck ==> s.ident.peer.Agent?
    ensures FarControl(s.(sent := s.sent.(toFar := s.sent.toFar + Settling(s, e, TcpAbort))), FromClient(s, e, TcpAbort))
  {
    hide ClientTalk, FarTalk, DataOf, Abort;
    var t := s.(took := s.took.(clientEnded := true));
    AbortFar(t, e, false);
    AbortFar(ToAgent(t.(awaitingClientAck := false), e, ConnectRejected(ReplyTo(s.ident))), e, false);
  }

  /** What a frame from the tunnel client makes the stream send to the far side. */
  lemma FromClientFar(s: Stream, e: Env, f: Frame)
    requires TcpMode(f) && (s.awaitingClientAck ==> s.ident.peer.Agent?)
    ensures FarControl(s.(sent := s.sent.(toFar := s.sent.toFar + Settling(s, e, f) + Relayed(s, e, f))), FromClient(s, e, f))
  {
    hide ClientTalk, FarTalk, DataOf, Abort, SyncReadState, SyncBackpressure, Cleanup, WriteFar;
    match f
    case Pause => SyncReadStateFar(s.(flow := s.flow.(peerPausedRead := true)), e);
    case Resume => SyncReadStateFar(s.(flow := s.flow.(peerPausedRead := false)), e);
    case TcpData(c) => ClientDataFar(s, e, c);
    case TcpClose => CleanupFar(s.(took := s.took.(clientEnded := true)), e);
    case TcpAbort => ClientAbortFar(s, e);
    case _ =>
  }

  // ---------------------------------------------------------------------------
  // Frames from the agent
  // ---------------------------------------------------------------------------

  lemma FromAgentTakes(s: Stream, e: Env, f: Frame)
    requires Inv(s, e) && !s.cleaned && s.ident.peer.Agent?
    ensures var t := FromAgent(s, e, f);
            && t.awaitingClientAck == s.awaitingClientAck
            && t.took == s.took.(accepted := t.took.accepted, farEnded := t.took.farEnded)
            && t.took.accepted == s.took.accepted + (if s.awaitingClientAck || s.sock.destroyed then [] else Carried(f))
            && (t.took.farEnded ==> s.took.farEnded || (!s.sock.destroyed && (f.TcpClose? || f.TcpAbort?)))
            && (!s.awaitingClientAck && (f.TcpClose? || f.TcpAbort?) ==> t.sock.destroyed)
  {
    hide InvWith, ClientTalk, FarTalk, DataOf, OnClose, OnError, OnData, AbortSocket, SyncBackpressure;
    FromAgentInv(s, e, f);
    if !s.sock.destroyed && (f.TcpClose? || f.TcpAbort?) {
      EndDestroys(s.(sock := s.sock.(destroyed := true, agentNotified := true), took := s.took.(farEnded := true)), e);
    }
  }

  lemma EndDestroys(s: Stream, e: Env)
    requires s.sock.destroyed
    ensures OnClose(s, e).sock.destroyed && OnError(s, e).sock.destroyed
  {
    hide ClientTalk, FarTalk, DataOf;
  }

  lemma FromAgentFar(s: Stream, e: Env, f: Frame)
    ensures FarControl(s, FromAgent(s, e, f))
  {
    hide ClientTalk, FarTalk, DataOf, OnClose, OnError, OnData, SyncBackpressure, ToAgent;
    var d := s.(sock := s.sock.(destroyed := true, agentNotified := true), took := s.took.(farEnded := true));
    match f
    case TcpData(c) =>
      var t := s.(took := s.took.(accepted := s.took.accepted + [c]));
      OnDataFar(t, e, c, High(e.highs, 0));
      ToAgentFar(t.(sock := t.sock.(destroyed := true, agentNotified := true, closeQueued := true)), e, TcpAbort);
    case TcpClose => EndFar(d, e);
    case TcpAbort => EndFar(d, e);
    case Pause => OnDrainFar(s.(flow := s.flow.(agentPaused := true)), e);
    case Resume => OnDrainFar(s.(flow := s.flow.(agentPaused := false)), e);
    case _ =>
  }
}
