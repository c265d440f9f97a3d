/**
 * The same stream as an object: the stream record and its socket with the fields the code updates in
 * place, the entry points as methods that call one another the way the event emitters do (destroy
 * emits `close`, whose listener cleans up, which destroys again; resume emits `data`, whose listener
 * may pause again). Each method is proved to have exactly the net effect given in RelayStream.
 */
module RelayStreamObject {
  import opened Frames
  import opened RelayStream
  import RA = RelayAnswers
  import SI = RelayStreamInvariant

  class TcpStream {
    const ident: Identity

    var cleaned: bool
    var abortSent: bool
    /** How many times state.onCleanup has been called. */
    var cleanups: nat
    var awaitingClientAck: bool
    var flow: Flow

    /** The socket. */
    var sock: Socket

    /** What has been sent on the two WebSockets, and the rest of the history. */
    ghost var sent: Sent
    ghost var took: Took

    ghost function Val(): Stream
      reads this
    {
      Stream(ident, cleaned, abortSent, cleanups, awaitingClientAck, flow, sock, sent, took)
    }

    /** createTcpStream, with what createAgentStream adds to the record. */
    constructor (id: nat, ws: nat, peer: Peer, port: int, requestId: nat, target: string)
      ensures Val() == Fresh(id, ws, peer, port, requestId, target)
    {
      ident := Identity(id, ws, peer, port, requestId, target);
      cleaned, abortSent, cleanups, awaitingClientAck := false, false, 0, peer.Agent?;
      flow := Flow(false, false, false, false, false, 0);
      sock := Socket(false, false, [], 0, false, false, false);
      sent, took := Sent([], []), Took([], [], false, false, false, false);
    }

    /** sendFrame / sendJsonFrame on the tunnel client's WebSocket. */
    method Send(e: Env, f: Frame)
      modifies this`sent
      ensures Val() == ToClient(old(Val()), e, f)
    {
      if e.wsOpen {
        sent := sent.(toClient := sent.toClient + [f]);
      }
    }

    /** The same on the agent's WebSocket. */
    method SendAgent(e: Env, f: Frame)
      modifies this`sent
      ensures Val() == ToAgent(old(Val()), e, f)
    {
      if ident.peer.Agent? && e.agentOpen {
        sent := sent.(toFar := sent.toFar + [f]);
      }
    }

    // -------------------------------------------------------------------------
    // Teardown
    // -------------------------------------------------------------------------

    /** socket.destroy: a virtual socket emits `close` before returning. */
    method Destroy(e: Env)
      modifies this
      ensures Val() == if old(sock.destroyed) then old(Val())
                       else if ident.peer.External? then DestroySocket(old(Val()), e)
                       else OnClose(DestroySocket(old(Val()), e), e)
      decreases if cleaned then 0 else 1, if sock.destroyed then 0 else 1, 0
    {
      if sock.destroyed {
        return;
      }
      sock := sock.(destroyed := true);
      if ident.peer.Agent? {
        if !sock.agentNotified && e.agentOpen {
          sock := sock.(agentNotified := true);
          SendAgent(e, TcpClose);
        }
        CloseListener(e);
      }
    }

    /** socket.abort, which only virtual sockets have: `close` is queued, not emitted. */
    method AbortVirtual(e: Env)
      modifies this
      ensures Val() == AbortSocket(old(Val()), e)
    {
      if ident.peer.External? || sock.destroyed {
        return;
      }
      sock := sock.(destroyed := true);
      sock := sock.(agentNotified := true);
      SendAgent(e, TcpAbort);
      sock := sock.(closeQueued := true);
    }

    /** StreamManager.cleanupTcpStream. */
    method CleanupTcpStream(e: Env)
      modifies this
      ensures Val() == Cleanup(old(Val()), e)
      decreases if cleaned then 0 else 1, if sock.destroyed then 0 else 1, 1
    {
      if cleaned {
        return;
      }
      cleaned := true;
      Destroy(e);
      cleanups := cleanups + 1;
    }

    /** StreamManager.abortTcpStream. */
    method AbortTcpStream(e: Env, notifyClient: bool)
      modifies this
      ensures Val() == Abort(old(Val()), e, notifyClient)
    {
      if cleaned {
        return;
      }
      AbortVirtual(e);
      if notifyClient && e.wsOpen && !abortSent {
        abortSent := true;
        Send(e, TcpAbort);
      }
      CleanupTcpStream(e);
    }

    /** The `close` listener of TcpRouter._wireStream. */
    method CloseListener(e: Env)
      modifies this
      ensures Val() == OnClose(old(Val()), e)
      decreases if cleaned then 0 else 1, if sock.destroyed then 0 else 1, 2
    {
      if cleaned {
        return;
      }
      Send(e, TcpClose);
      CleanupTcpStream(e);
    }

    /** The `error` listener. */
    method ErrorListener(e: Env)
      modifies this
      ensures Val() == OnError(old(Val()), e)
    {
      if cleaned {
        return;
      }
      Send(e, TcpAbort);
      AbortTcpStream(e, false);
    }

    /** StreamManager.cleanupStream, the HTTP path, as it acts on a TCP record: no socket, no onCleanup. */
    method CleanupStream()
      modifies this
      ensures Val() == CrossModeCleanup(old(Val()))
    {
      if cleaned {
        return;
      }
      cleaned := true;
      took := took.(crossed := true, taken := true);
    }

    // -------------------------------------------------------------------------
    // Far side -> tunnel client
    // -------------------------------------------------------------------------

    method PauseReading(e: Env)
      modifies this
      ensures Val() == PauseSocket(old(Val()), e)
    {
      if sock.paused {
        return;
      }
      sock := sock.(paused := true);
      SendAgent(e, Pause);
    }

    /** socket.resume: releases the buffer through the `data` listener, then tells the agent. */
    method ResumeReading(e: Env)
      requires !flow.localPausedForWs
      modifies this
      ensures Val() == ResumeSocket(old(Val()), e)
      decreases if flow.localPausedForWs then 0 else 1, 1
    {
      hide ClientTalk, FarTalk, DataOf, OnData, ToAgent, SameInputs;
      if !sock.paused {
        return;
      }
      sock := sock.(paused := false);
      var chunks := sock.buffered;
      sock := sock.(buffered := []);
      sock := sock.(bufferedBytes := 0);
      ghost var start := Val();
      var i := 0;
      while i < |chunks|
        invariant i <= |chunks|
        invariant EmitAll(Val(), e, chunks[i..], Drop(e.highs, i)) == EmitAll(start, e, chunks, e.highs)
      {
        assert chunks[i..][1..] == chunks[i + 1..];
        DataListener(e, chunks[i], High(e.highs, i));
        i := i + 1;
      }
      SendAgent(e, Resume);
    }

    /** syncSocketReadState. */
    method SyncSocketReadState(e: Env)
      modifies this
      ensures Val() == SyncReadState(old(Val()), e)
      decreases if flow.localPausedForWs then 0 else 1, 2
    {
      if sock.destroyed {
        return;
      }
      if flow.peerPausedRead || flow.localPausedForWs {
        PauseReading(e);
      } else {
        ResumeReading(e);
      }
    }

    /** The `data` listener. */
    method DataListener(e: Env, chunk: Chunk, high: bool)
      modifies this
      ensures Val() == OnData(old(Val()), e, chunk, high)
      decreases if flow.localPausedForWs then 0 else 1, 0
    {
      hide ClientTalk, FarTalk, DataOf;
      if cleaned {
        return;
      }
      if !e.wsOpen {
        AbortTcpStream(e, true);
        return;
      }
      flow := flow.(pendingSends := flow.pendingSends + 1);
      Send(e, TcpData(chunk));
      if high && !flow.localPausedForWs {
        flow := flow.(localPausedForWs := true);
        SyncSocketReadState(e);
      }
    }

    /** VirtualSocket.pushInbound. */
    method PushFromAgent(e: Env, chunk: Chunk)
      modifies this
      ensures Val() == PushInbound(old(Val()), e, chunk)
    {
      if sock.destroyed {
        return;
      }
      took := took.(accepted := took.accepted + [chunk]);
      if sock.paused {
        if sock.bufferedBytes + |chunk| > e.limit {
          AbortVirtual(e);
          return;
        }
        sock := sock.(buffered := sock.buffered + [chunk]);
        sock := sock.(bufferedBytes := sock.bufferedBytes + |chunk|);
        return;
      }
      DataListener(e, chunk, High(e.highs, 0));
    }

    // -------------------------------------------------------------------------
    // Tunnel client -> far side
    // -------------------------------------------------------------------------

    /** syncTcpBackpressure. */
    method SyncTcpBackpressure(e: Env)
      modifies this
      ensures Val() == SyncBackpressure(old(Val()), e)
    {
      var shouldPause := flow.agentPaused || flow.wsBackpressured;
      if shouldPause && !flow.clientPausedForAgent {
        flow := flow.(clientPausedForAgent := true);
        Send(e, Pause);
      } else if !shouldPause && flow.clientPausedForAgent {
        flow := flow.(clientPausedForAgent := false);
        Send(e, Resume);
      }
    }

    /** socket.write, virtual or real. */
    method Write(e: Env, chunk: Chunk) returns (ok: bool)
      modifies this
      ensures (Val(), ok) == WriteFar(old(Val()), e, chunk)
    {
      if sock.destroyed {
        return false;
      }
      if ident.peer.External? {
        sent := sent.(toFar := sent.toFar + [TcpData(chunk)]);
        return !e.full;
      }
      if !e.agentOpen {
        return false;
      }
      SendAgent(e, TcpData(chunk));
      if e.full {
        sock := sock.(pendingDrain := true);
        return false;
      }
      return true;
    }

    /** The `drain` listener of createTcpStream. */
    method DrainListener(e: Env)
      modifies this
      ensures Val() == OnDrain(old(Val()), e)
    {
      if cleaned {
        return;
      }
      if flow.wsBackpressured {
        flow := flow.(wsBackpressured := false);
        SyncTcpBackpressure(e);
      }
    }

    // -------------------------------------------------------------------------
    // Entry points
    // -------------------------------------------------------------------------

    /** The TCP_DATA case of StreamManager.handleClientFrame. */
    method HandleClientData(e: Env, chunk: Chunk)
      requires !sock.destroyed
      modifies this
      ensures Val() == FromClient(old(Val()), e, TcpData(chunk))
    {
      hide ClientTalk, FarTalk, DataOf, SyncBackpressure, WriteFar;
      ghost var taken := old(Val()).(took := old(Val()).took.(received := old(Val()).took.received + [chunk]));
      took := took.(received := took.received + [chunk]);
      assert Val() == taken;
      var ok := Write(e, chunk);
      assert (Val(), ok) == WriteFar(taken, e, chunk);
      if !ok && !flow.wsBackpressured {
        flow := flow.(wsBackpressured := true);
        SyncTcpBackpressure(e);
      }
    }

    /** The TCP_ABORT case: a connect that was never acknowledged is rejected instead. */
    method HandleClientAbort(e: Env)
      modifies this
      ensures Val() == FromClient(old(Val()), e, TcpAbort)
    {
      hide ClientTalk, FarTalk, DataOf, Abort, Cleanup, SyncReadState, SyncBackpressure, WriteFar, OnClose, OnError,
           OnDrain, OnData, PushInbound, CrossModeCleanup, SameInputs;
      took := took.(clientEnded := true);
      if awaitingClientAck && ident.peer.Agent? && e.agentOpen {
        SendAgent(e, ConnectRejected(ReplyTo(ident)));
        awaitingClientAck := false;
      }
      AbortTcpStream(e, false);
    }

    /** The switch of StreamManager.handleClientFrame, for a TCP record found under the frame's id. */
    method HandleClientFrame(e: Env, f: Frame)
      requires !cleaned
      modifies this
      ensures Val() == FromClient(old(Val()), e, f)
      ensures old(SI.Inv(Val(), e)) ==> RA.Does(old(Val()), Val(), e, RA.OfClient(f))
    {
      hide ClientTalk, FarTalk, DataOf, Abort, Cleanup, SyncReadState, SyncBackpressure, WriteFar, OnClose, OnError,
           OnDrain, OnData, PushInbound, SameInputs, SI.Inv, RA.Does;
      if SI.Inv(Val(), e) { RA.AnswersExactly(Val(), e, RA.OfClient(f)); }
      match f
      case ResMeta(_, _) =>
        // reading state.req.method throws, and the handler's catch aborts the stream
        took := took.(crossed := true);
        AbortTcpStream(e, false);
      case ResData(_) => CleanupStream();
      case ResEnd => CleanupStream();
      case ResAbort => CleanupStream();
      case Pause =>
        flow := flow.(peerPausedRead := true);
        SyncSocketReadState(e);
      case Resume =>
        flow := flow.(peerPausedRead := false);
        SyncSocketReadState(e);
      case TcpData(chunk) =>
        if !sock.destroyed {
          HandleClientData(e, chunk);
        }
      case TcpClose =>
        took := took.(clientEnded := true);
        CleanupTcpStream(e);
      case TcpOpenAck =>
        if !awaitingClientAck {
          return;
        }
        awaitingClientAck := false;
        SendAgent(e, TcpConnectAck(ReplyTo(ident)));
      case TcpAbort => HandleClientAbort(e);
      case _ =>
    }

    /** The switch of TcpAgentServer._handleFrame, for a stream of that agent. */
    method HandleAgentFrame(e: Env, f: Frame)
      requires !cleaned
      modifies this
      ensures Val() == FromAgent(old(Val()), e, f)
      ensures old(SI.Inv(Val(), e)) && ident.peer.Agent? ==> RA.Does(old(Val()), Val(), e, RA.OfAgent(f))
    {
      hide ClientTalk, FarTalk, DataOf, Abort, Cleanup, SyncReadState, SyncBackpressure, WriteFar, OnClose, OnError,
           OnDrain, OnData, PushInbound, SameInputs, SI.Inv, RA.Does;
      if SI.Inv(Val(), e) && ident.peer.Agent? { RA.AnswersExactly(Val(), e, RA.OfAgent(f)); }
      if awaitingClientAck {
        return;
      }
      match f
      case TcpData(chunk) => PushFromAgent(e, chunk);
      case TcpClose =>
        // VirtualSocket.endFromAgent
        if sock.destroyed {
          return;
        }
        sock := sock.(destroyed := true);
        sock := sock.(agentNotified := true);
        took := took.(farEnded := true);
        CloseListener(e);
      case TcpAbort =>
        // VirtualSocket.abortFromAgent
        if sock.destroyed {
          return;
        }
        sock := sock.(destroyed := true);
        sock := sock.(agentNotified := true);
        took := took.(farEnded := true);
        ErrorListener(e);
      case Pause =>
        flow := flow.(agentPaused := true);
        SyncTcpBackpressure(e);
      case Resume =>
        flow := flow.(agentPaused := false);
        SyncTcpBackpressure(e);
      case _ =>
    }

    /** Callbacks, socket events, timers and disconnects. */
    method HandleLocal(e: Env, ev: Local)
      requires Possible(Val(), e, ev)
      modifies this
      ensures Val() == OnLocal(old(Val()), e, ev)
      ensures old(SI.Inv(Val(), e)) && !old(cleaned) ==> RA.Does(old(Val()), Val(), e, RA.Happens(ev))
    {
      hide ClientTalk, FarTalk, DataOf, Abort, Cleanup, SyncReadState, SyncBackpressure, WriteFar, OnClose, OnError,
           OnDrain, OnData, PushInbound, SI.Inv, RA.Does;
      if SI.Inv(Val(), e) && !cleaned { RA.AnswersExactly(Val(), e, RA.Happens(ev)); }
      match ev
      case SendDone =>
        flow := flow.(pendingSends := flow.pendingSends - 1);
        if !cleaned && flow.localPausedForWs && flow.pendingSends == 0 && e.low {
          flow := flow.(localPausedForWs := false);
          SyncSocketReadState(e);
        }
      case FarSendDone =>
        if !sock.destroyed && sock.pendingDrain && e.low {
          sock := sock.(pendingDrain := false);
          DrainListener(e);
        }
      case QueuedClose =>
        sock := sock.(closeQueued := false);
        CloseListener(e);
      case ExternalData(chunk) =>
        if !cleaned {
          took := took.(accepted := took.accepted + [chunk]);
        }
        DataListener(e, chunk, High(e.highs, 0));
      case ExternalDrain => DrainListener(e);
      case ExternalClose =>
        sock := sock.(destroyed := true);
        took := took.(farEnded := true);
        CloseListener(e);
      case ExternalError =>
        sock := sock.(destroyed := true);
        took := took.(farEnded := true);
        ErrorListener(e);
      case IdleTimeout => AbortTcpStream(e, true);
      case ClientGone => AbortTcpStream(e, false);
      case AgentGone => AbortTcpStream(e, true);
    }
  }

  function Drop(highs: seq<bool>, i: nat): seq<bool> {
    if i <= |highs| then highs[i..] else []
  }
}
