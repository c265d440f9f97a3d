/** What every step of a relay TCP stream keeps, whatever the tunnel client and the agent send. */
module RelayStreamInvariant {
  import opened Frames
  import opened RelayStream

  /** Client-side pausing: exactly the two reasons. */
  ghost predicate FlowExact(s: Stream) {
    s.flow.clientPausedForAgent == (s.flow.agentPaused || s.flow.wsBackpressured)
  }

  /** Read-side pausing of a live socket: exactly the two reasons. */
  ghost predicate ReadExact(s: Stream) {
    !s.sock.destroyed ==> s.sock.paused == (s.flow.peerPausedRead || s.flow.localPausedForWs)
  }

  /** The buffer is bounded, counted, and empty whenever the socket is not paused. */
  ghost predicate BufferExact(s: Stream, limit: nat) {
    && (!s.sock.paused ==> s.sock.buffered == [])
    && s.sock.bufferedBytes == TotalBytes(s.sock.buffered)
    && s.sock.bufferedBytes <= limit
    && (s.ident.peer.External? ==> s.sock.buffered == [])
  }

  /**
   * Order towards the tunnel client: forwarded ++ buffered ++ rest == accepted while the stream lives,
   * where `rest` are the chunks a resume in progress has yet to release. When the agent ends the stream,
   * what is buffered then stays in the buffer for good.
   */
  ghost predicate FifoUp(s: Stream, rest: seq<Chunk>) {
    && DataOf(s.sent.toClient) <= s.took.accepted
    && (!s.cleaned && (!s.sock.destroyed || s.ident.peer.External?) ==> DataOf(s.sent.toClient) + s.sock.buffered + rest == s.took.accepted)
    && (s.ident.peer.Agent? && s.took.farEnded ==> DataOf(s.sent.toClient) + s.sock.buffered == s.took.accepted)
  }

  /** Order towards the far side. */
  ghost predicate FifoDown(s: Stream, e: Env) {
    && DataOf(s.sent.toFar) <= s.took.received
    && (s.ident.peer.External? || e.agentOpen ==> DataOf(s.sent.toFar) == s.took.received)
  }

  /** The word sent to the tunnel client while the stream is registered. */
  ghost predicate LiveTalk(s: Stream, e: Env) {
    && ClientTalk(s.sent.toClient).Talking?
    && !s.abortSent && !s.took.clientEnded && !s.took.crossed
    && (e.wsOpen ==> ClientTalk(s.sent.toClient) == Talking(s.flow.clientPausedForAgent))
  }

  /**
   * The word sent to the tunnel client once the ending of the stream is decided. What came from a real
   * socket has all been forwarded before the client is told of the ending.
   */
  ghost predicate LastTalk(s: Stream, e: Env) {
    && ClientTalk(s.sent.toClient) != Malformed
    && (e.wsOpen ==> ClientTalk(s.sent.toClient).Ended? || s.took.clientEnded || s.took.crossed
                     || ClientTalk(s.sent.toClient).Unopened?)
    && (s.took.clientEnded ==> ClientTalk(s.sent.toClient).Talking?)
    && (s.ident.peer.External? && ClientTalk(s.sent.toClient).Ended? ==> DataOf(s.sent.toClient) == s.took.accepted)
  }

  /** The word sent to the far side is well formed, and says whether the socket has ended. */
  ghost predicate FarWordOk(s: Stream, e: Env) {
    var t := FarTalk(s.sent.toFar);
    && t.FarWord?
    && (s.ident.peer.External? ==> !t.ended && t.reply == NoReply && !s.awaitingClientAck && !s.sock.closeQueued)
    && (s.awaitingClientAck ==> t.reply == NoReply && s.took.accepted == [])
    && (!s.sock.destroyed ==> !t.ended && !s.sock.agentNotified && !s.took.farEnded)
    && (s.took.farEnded ==> !t.ended && (s.ident.peer.Agent? ==> s.sock.agentNotified))
    && (s.ident.peer.Agent? && s.sock.destroyed && e.agentOpen && !s.took.farEnded ==> t.ended)
    && (t.ended ==> s.sock.agentNotified)
    && (t.closed ==> t.ended && s.took.clientEnded && DataOf(s.sent.toFar) == s.took.received)
  }

  /** onCleanup has run once if the stream was cleaned up, and not at all while it lives or if the HTTP path took it. */
  ghost predicate CountOk(s: Stream) {
    && s.cleanups == (if s.cleaned && !s.took.taken then 1 else 0)
    && (s.took.taken ==> s.cleaned && s.took.crossed)
    && (s.cleaned && !s.took.taken ==> s.sock.destroyed)
  }

  /** Everything that does not mention the word sent to the tunnel client. */
  ghost predicate Core(s: Stream, e: Env, rest: seq<Chunk>) {
    && BufferExact(s, e.limit)
    && FifoUp(s, rest)
    && FifoDown(s, e)
    && FarWordOk(s, e)
    && (s.sock.closeQueued ==> s.sock.destroyed)
  }

  ghost predicate InvWith(s: Stream, e: Env, rest: seq<Chunk>) {
    && FlowExact(s)
    && ReadExact(s)
    && Core(s, e, rest)
    && (if s.cleaned then LastTalk(s, e) else LiveTalk(s, e))
    && CountOk(s)
    && (!s.cleaned && s.sock.destroyed ==> s.sock.closeQueued && !s.awaitingClientAck)
  }

  ghost predicate Inv(s: Stream, e: Env) {
    InvWith(s, e, [])
  }

  /** How the surroundings may change between two steps: OPEN never comes back. */
  ghost predicate Later(e: Env, e': Env) {
    && (e'.wsOpen ==> e.wsOpen)
    && (e'.agentOpen ==> e.agentOpen)
    && e'.limit == e.limit
  }

  lemma InvLater(s: Stream, e: Env, e': Env)
    requires Inv(s, e) && Later(e, e')
    ensures Inv(s, e')
  {
  }

  /** What no step ever takes back. */
  ghost predicate Grows(s: Stream, t: Stream) {
    && t.ident == s.ident
    && s.sent.toClient <= t.sent.toClient
    && s.sent.toFar <= t.sent.toFar
    && s.took.accepted <= t.took.accepted
    && s.took.received <= t.took.received
    && (s.cleaned ==> t.cleaned)
    && (s.sock.destroyed ==> t.sock.destroyed)
    && (s.took.clientEnded ==> t.took.clientEnded)
    && (s.took.farEnded ==> t.took.farEnded)
    && s.cleanups <= t.cleanups
    && (s.cleaned ==> t.cleanups == s.cleanups && t.took.taken == s.took.taken)
  }

  lemma OpenedInv(id: nat, ws: nat, peer: Peer, port: int, requestId: nat, target: string, host: string, e: Env)
    requires e.wsOpen
    ensures Inv(ToClient(Fresh(id, ws, peer, port, requestId, target), e, TcpOpen(true, host, port)), e)
  {
  }

  // ---------------------------------------------------------------------------
  // Teardown
  // ---------------------------------------------------------------------------

  ghost predicate Uncleaned(s: Stream) {
    !s.cleaned && s.cleanups == 0 && !s.took.taken
  }

  /** A registered stream whose ending is already decided. */
  ghost predicate Closing(s: Stream, e: Env, rest: seq<Chunk>) {
    Uncleaned(s) && FlowExact(s) && ReadExact(s) && Core(s, e, rest) && LastTalk(s, e)
    && (s.ident.peer.Agent? && !s.sock.destroyed ==> s.took.clientEnded)
  }

  lemma CleanupInv(s: Stream, e: Env, rest: seq<Chunk>)
    requires Closing(s, e, rest)
    ensures forall rest' :: InvWith(Cleanup(s, e), e, rest')
    ensures Cleanup(s, e).cleaned && Cleanup(s, e).sock.destroyed
    ensures Grows(s, Cleanup(s, e))
  {
    hide ClientTalk, FarTalk, DataOf, TotalBytes;
    if s.sock.destroyed {
    } else if s.ident.peer.Agent? && e.agentOpen {
    } else {
    }
  }

  lemma AbortSocketCore(s: Stream, e: Env, rest: seq<Chunk>)
    requires Core(s, e, rest)
    ensures Core(AbortSocket(s, e), e, rest)
    ensures Grows(s, AbortSocket(s, e))
  {
    hide ClientTalk, FarTalk, DataOf, TotalBytes;
    if s.sock.destroyed || s.ident.peer.External? {
    } else if e.agentOpen {
    } else {
    }
  }

  /** A registered stream that may be aborted: either it is told the client now, or its ending is known. */
  ghost predicate Abortable(s: Stream, e: Env, rest: seq<Chunk>, notify: bool) {
    && Uncleaned(s) && FlowExact(s) && ReadExact(s) && Core(s, e, rest)
    && (if notify then LiveTalk(s, e) else LastTalk(s, e))
    && (notify && s.ident.peer.External? && e.wsOpen ==> rest == [])
  }

  lemma AbortInv(s: Stream, e: Env, rest: seq<Chunk>, notify: bool)
    requires Abortable(s, e, rest, notify)
    ensures forall rest' :: InvWith(Abort(s, e, notify), e, rest')
    ensures Abort(s, e, notify).cleaned && Abort(s, e, notify).sock.destroyed
    ensures Grows(s, Abort(s, e, notify))
  {
    hide ClientTalk, FarTalk, DataOf, TotalBytes;
    AbortSocketCore(s, e, rest);
    var a := AbortSocket(s, e);
    var b := if notify && e.wsOpen && !a.abortSent then ToClient(a.(abortSent := true), e, TcpAbort) else a;
    assert Closing(b, e, rest);
    CleanupInv(b, e, rest);
  }

  lemma OnCloseInv(s: Stream, e: Env, rest: seq<Chunk>)
    requires s.cleaned ==> InvWith(s, e, rest)
    requires !s.cleaned ==> s.sock.destroyed
    requires !s.cleaned ==> Uncleaned(s) && FlowExact(s) && ReadExact(s) && Core(s, e, rest) && LiveTalk(s, e)
    requires s.ident.peer.External? ==> rest == []
    ensures InvWith(OnClose(s, e), e, rest)
    ensures OnClose(s, e).cleaned
    ensures Grows(s, OnClose(s, e))
  {
    hide ClientTalk, FarTalk, DataOf, TotalBytes;
    if !s.cleaned {
      var t := ToClient(s, e, TcpClose);
      assert Closing(t, e, rest);
      CleanupInv(t, e, rest);
    }
  }

  lemma OnErrorInv(s: Stream, e: Env, rest: seq<Chunk>)
    requires s.cleaned ==> InvWith(s, e, rest)
    requires !s.cleaned ==> Uncleaned(s) && FlowExact(s) && ReadExact(s) && Core(s, e, rest) && LiveTalk(s, e)
    requires s.ident.peer.External? ==> rest == []
    ensures InvWith(OnError(s, e), e, rest)
    ensures OnError(s, e).cleaned
    ensures Grows(s, OnError(s, e))
  {
    hide ClientTalk, FarTalk, DataOf, TotalBytes;
    if !s.cleaned {
      var t := ToClient(s, e, TcpAbort);
      assert Abortable(t, e, rest, false);
      AbortInv(t, e, rest, false);
    }
  }

  // ---------------------------------------------------------------------------
  // Far side -> tunnel client
  // ---------------------------------------------------------------------------

  /** One chunk through the `data` listener: it moves from the chunks still owed to the forwarded ones. */
  lemma OnDataInv(s: Stream, e: Env, c: Chunk, high: bool, rest: seq<Chunk>)
    requires InvWith(s, e, [c] + rest)
    requires s.sock.buffered == [] && (s.sock.destroyed ==> s.cleaned)
    ensures InvWith(OnData(s, e, c, high), e, rest)
    ensures OnData(s, e, c, high).sock.buffered == []
    ensures OnData(s, e, c, high).sock.destroyed ==> OnData(s, e, c, high).cleaned
    ensures Grows(s, OnData(s, e, c, high))
  {
    hide ClientTalk, FarTalk, DataOf, TotalBytes;
    if s.cleaned {
    } else if !e.wsOpen {
      AbortInv(s, e, [c] + rest, true);
    } else {
      var f := ToClient(s.(flow := s.flow.(pendingSends := s.flow.pendingSends + 1)), e, TcpData(c));
      assert f.took.accepted == DataOf(f.sent.toClient) + [] + rest;
      assert InvWith(f, e, rest);
    }
  }

  lemma {:induction false} EmitAllInv(s: Stream, e: Env, chunks: seq<Chunk>, highs: seq<bool>)
    requires InvWith(s, e, chunks)
    requires s.sock.buffered == [] && (s.sock.destroyed ==> s.cleaned)
    ensures Inv(EmitAll(s, e, chunks, highs), e)
    ensures Grows(s, EmitAll(s, e, chunks, highs))
    decreases |chunks|
  {
    hide ClientTalk, FarTalk, DataOf, TotalBytes;
    if |chunks| > 0 {
      assert [chunks[0]] + chunks[1..] == chunks;
      OnDataInv(s, e, chunks[0], High(highs, 0), chunks[1..]);
      EmitAllInv(OnData(s, e, chunks[0], High(highs, 0)), e, chunks[1..], if |highs| == 0 then [] else highs[1..]);
    }
  }

  /** All of the invariant except which way the socket's read side currently stands. */
  ghost predicate ReadPending(s: Stream, e: Env) {
    Uncleaned(s) && FlowExact(s) && Core(s, e, []) && LiveTalk(s, e)
    && (s.sock.destroyed ==> s.sock.closeQueued && !s.awaitingClientAck)
  }

  lemma PauseSocketInv(s: Stream, e: Env)
    requires ReadPending(s, e) && !s.sock.destroyed && (s.flow.peerPausedRead || s.flow.localPausedForWs)
    ensures Inv(PauseSocket(s, e), e)
    ensures Grows(s, PauseSocket(s, e))
  {
    hide ClientTalk, FarTalk, DataOf, TotalBytes;
  }

  /** PAUSE and RESUME to the agent are allowed at any time. */
  lemma ControlInv(s: Stream, e: Env, f: Frame)
    requires Inv(s, e) && (f.Pause? || f.Resume?)
    ensures Inv(ToAgent(s, e, f), e) && Grows(s, ToAgent(s, e, f))
  {
    hide ClientTalk, FarTalk, DataOf, TotalBytes;
  }

  /** The state in which a resume starts to release the buffer. */
  function Unbuffered(s: Stream): Stream {
    s.(sock := s.sock.(paused := false, buffered := [], bufferedBytes := 0))
  }

  lemma UnbufferedInv(s: Stream, e: Env)
    requires ReadPending(s, e) && !s.sock.destroyed && !s.flow.peerPausedRead && !s.flow.localPausedForWs
    ensures InvWith(Unbuffered(s), e, s.sock.buffered) && Grows(s, Unbuffered(s))
  {
    hide ClientTalk, FarTalk, DataOf, TotalBytes;
    TotalBytesEmpty();
  }

  lemma GrowsTransitive(s: Stream, t: Stream, u: Stream)
    requires Grows(s, t) && Grows(t, u)
    ensures Grows(s, u)
  {
  }

  lemma ResumeSocketInv(s: Stream, e: Env)
    requires ReadPending(s, e) && !s.sock.destroyed && !s.flow.peerPausedRead && !s.flow.localPausedForWs
    ensures Inv(ResumeSocket(s, e), e)
    ensures Grows(s, ResumeSocket(s, e))
  {
    hide ClientTalk, FarTalk, DataOf, TotalBytes, EmitAll, ToAgent;
    if s.sock.paused {
      UnbufferedInv(s, e);
      var t := EmitAll(Unbuffered(s), e, s.sock.buffered, e.highs);
      EmitAllInv(Unbuffered(s), e, s.sock.buffered, e.highs);
      ControlInv(t, e, Resume);
      GrowsTransitive(s, Unbuffered(s), t);
      GrowsTransitive(s, t, ToAgent(t, e, Resume));
    }
  }

  lemma SyncReadStateInv(s: Stream, e: Env)
    requires ReadPending(s, e)
    ensures Inv(SyncReadState(s, e), e)
    ensures Grows(s, SyncReadState(s, e))
  {
    hide ClientTalk, FarTalk, DataOf, TotalBytes, PauseSocket, ResumeSocket;
    if s.sock.destroyed {
    } else if s.flow.peerPausedRead || s.flow.localPausedForWs {
      PauseSocketInv(s, e);
    } else {
      ResumeSocketInv(s, e);
    }
  }

  lemma TotalBytesEmpty()
    ensures TotalBytes([]) == 0
  {
  }

  lemma PushInboundInv(s: Stream, e: Env, c: Chunk)
    requires Inv(s, e) && s.ident.peer.Agent? && !s.cleaned && !s.awaitingClientAck
    ensures Inv(PushInbound(s, e, c), e)
    ensures Grows(s, PushInbound(s, e, c))
  {
    hide ClientTalk, FarTalk, DataOf, TotalBytes;
    if !s.sock.destroyed {
      var t := s.(took := s.took.(accepted := s.took.accepted + [c]));
      if !t.sock.paused {
        assert InvWith(t, e, [c] + []);
        OnDataInv(t, e, c, High(e.highs, 0), []);
      } else if t.sock.bufferedBytes + |c| > e.limit {
        assert Core(t, e, [c]);
        AbortSocketCore(t, e, [c]);
      } else {
        TotalBytesAppend(t.sock.buffered, c);
      }
    }
  }

  // ---------------------------------------------------------------------------
  // Tunnel client -> far side
  // ---------------------------------------------------------------------------

  /** All of the invariant except that the client may not have been told the current pause state. */
  ghost predicate PausePending(s: Stream, e: Env) {
    Uncleaned(s) && ReadExact(s) && Core(s, e, []) && LiveTalk(s, e)
    && (s.sock.destroyed ==> s.sock.closeQueued && !s.awaitingClientAck)
  }

  lemma SyncBackpressureInv(s: Stream, e: Env)
    requires PausePending(s, e)
    ensures Inv(SyncBackpressure(s, e), e)
    ensures Grows(s, SyncBackpressure(s, e))
  {
    hide ClientTalk, FarTalk, DataOf, TotalBytes;
  }

  lemma WriteFarInv(s: Stream, e: Env, c: Chunk)
    requires Inv(s, e) && !s.cleaned && !s.sock.destroyed
    ensures var t := WriteFar(s.(took := s.took.(received := s.took.received + [c])), e, c).0;
            PausePending(t, e) && FlowExact(t) && Grows(s, t)
  {
    hide ClientTalk, FarTalk, DataOf, TotalBytes;
  }

  // ---------------------------------------------------------------------------
  // The three kinds of steps
  // ---------------------------------------------------------------------------

  lemma GrowsSelf(s: Stream)
    ensures Grows(s, s)
  {
  }

  lemma ClientReadInv(s: Stream, e: Env, paused: bool)
    requires Inv(s, e) && !s.cleaned
    ensures Inv(SyncReadState(s.(flow := s.flow.(peerPausedRead := paused)), e), e)
    ensures Grows(s, SyncReadState(s.(flow := s.flow.(peerPausedRead := paused)), e))
  {
    hide ClientTalk, FarTalk, DataOf, TotalBytes;
    SyncReadStateInv(s.(flow := s.flow.(peerPausedRead := paused)), e);
  }

  lemma ClientDataInv(s: Stream, e: Env, c: Chunk)
    requires Inv(s, e) && !s.cleaned
    ensures Inv(FromClient(s, e, TcpData(c)), e)
    ensures Grows(s, FromClient(s, e, TcpData(c)))
  {
    hide ClientTalk, FarTalk, DataOf, TotalBytes;
    if !s.sock.destroyed {
      WriteFarInv(s, e, c);
      var (w, ok) := WriteFar(s.(took := s.took.(received := s.took.received + [c])), e, c);
      if !ok && !w.flow.wsBackpressured {
        SyncBackpressureInv(w.(flow := w.flow.(wsBackpressured := true)), e);
      }
    }
  }

  lemma ClientOpenAckInv(s: Stream, e: Env)
    requires Inv(s, e) && !s.cleaned
    ensures Inv(FromClient(s, e, TcpOpenAck), e)
    ensures Grows(s, FromClient(s, e, TcpOpenAck))
  {
    hide ClientTalk, FarTalk, DataOf, TotalBytes;
  }

  lemma ClientCloseInv(s: Stream, e: Env)
    requires Inv(s, e) && !s.cleaned
    ensures Inv(FromClient(s, e, TcpClose), e)
    ensures Grows(s, FromClient(s, e, TcpClose))
  {
    hide ClientTalk, FarTalk, DataOf, TotalBytes;
    CleanupInv(s.(took := s.took.(clientEnded := true)), e, []);
  }

  /** HTTP-mode frames on a TCP stream: the stream is gone, but the books of onCleanup stay open. */
  lemma CrossModeInv(s: Stream, e: Env)
    requires Inv(s, e) && !s.cleaned
    ensures Inv(CrossModeCleanup(s), e)
    ensures Grows(s, CrossModeCleanup(s))
    ensures Inv(Abort(s.(took := s.took.(crossed := true)), e, false), e)
    ensures Grows(s, Abort(s.(took := s.took.(crossed := true)), e, false))
  {
    hide ClientTalk, FarTalk, DataOf, TotalBytes;
    AbortInv(s.(took := s.took.(crossed := true)), e, [], false);
  }

  /** Any frame from the tunnel client, HTTP-mode frames included, keeps the invariant. */
  lemma FromClientInv(s: Stream, e: Env, f: Frame)
    requires Inv(s, e) && !s.cleaned
    ensures Inv(FromClient(s, e, f), e)
    ensures Grows(s, FromClient(s, e, f))
  {
    hide ClientTalk, FarTalk, DataOf, TotalBytes, InvWith, Grows, Abort, Cleanup, SyncReadState, SyncBackpressure,
         WriteFar, OnClose, OnError, OnDrain, OnData;
    GrowsSelf(s);
    match f
    case ResMeta(_, _) => CrossModeInv(s, e);
    case ResData(_) => CrossModeInv(s, e);
    case ResEnd => CrossModeInv(s, e);
    case ResAbort => CrossModeInv(s, e);
    case Pause => ClientReadInv(s, e, true);
    case Resume => ClientReadInv(s, e, false);
    case TcpData(c) => ClientDataInv(s, e, c);
    case TcpClose => ClientCloseInv(s, e);
    case TcpOpenAck => ClientOpenAckInv(s, e);
    case TcpAbort => ClientAbortInv(s, e);
    case _ =>
  }

  lemma ClientAbortInv(s: Stream, e: Env)
    requires Inv(s, e) && !s.cleaned
    ensures Inv(FromClient(s, e, TcpAbort), e)
    ensures Grows(s, FromClient(s, e, TcpAbort))
  {
    hide ClientTalk, FarTalk, DataOf, TotalBytes;
    var t := s.(took := s.took.(clientEnded := true));
    var u := if t.awaitingClientAck && t.ident.peer.Agent? && e.agentOpen
             then ToAgent(t.(awaitingClientAck := false), e, ConnectRejected(ReplyTo(s.ident)))
             else t;
    assert Abortable(u, e, [], false);
    AbortInv(u, e, [], false);
  }

  lemma AgentEndInv(s: Stream, e: Env)
    requires Inv(s, e) && !s.cleaned && s.ident.peer.Agent? && !s.awaitingClientAck && !s.sock.destroyed
    ensures var t := s.(sock := s.sock.(destroyed := true, agentNotified := true), took := s.took.(farEnded := true));
            Inv(OnClose(t, e), e) && Grows(s, OnClose(t, e)) && Inv(OnError(t, e), e) && Grows(s, OnError(t, e))
  {
    hide ClientTalk, FarTalk, DataOf, TotalBytes, OnClose, OnError;
    var t := s.(sock := s.sock.(destroyed := true, agentNotified := true), took := s.took.(farEnded := true));
    OnCloseInv(t, e, []);
    OnErrorInv(t, e, []);
    GrowsTransitive(s, t, OnClose(t, e));
    GrowsTransitive(s, t, OnError(t, e));
  }

  lemma AgentPauseInv(s: Stream, e: Env, paused: bool)
    requires Inv(s, e) && !s.cleaned
    ensures Inv(SyncBackpressure(s.(flow := s.flow.(agentPaused := paused)), e), e)
    ensures Grows(s, SyncBackpressure(s.(flow := s.flow.(agentPaused := paused)), e))
  {
    hide ClientTalk, FarTalk, DataOf, TotalBytes, SyncBackpressure;
    var t := s.(flow := s.flow.(agentPaused := paused));
    SyncBackpressureInv(t, e);
    GrowsTransitive(s, t, SyncBackpressure(t, e));
  }

  /** Any frame from the owning agent keeps the invariant. */
  lemma FromAgentInv(s: Stream, e: Env, f: Frame)
    requires Inv(s, e) && !s.cleaned && s.ident.peer.Agent?
    ensures Inv(FromAgent(s, e, f), e)
    ensures Grows(s, FromAgent(s, e, f))
  {
    hide ClientTalk, FarTalk, DataOf, TotalBytes, InvWith, Grows, OnClose, OnError, PushInbound, SyncBackpressure;
    GrowsSelf(s);
    if !s.awaitingClientAck {
      match f
      case TcpData(c) => PushInboundInv(s, e, c);
      case TcpClose => if !s.sock.destroyed { AgentEndInv(s, e); }
      case TcpAbort => if !s.sock.destroyed { AgentEndInv(s, e); }
      case Pause => AgentPauseInv(s, e, true);
      case Resume => AgentPauseInv(s, e, false);
      case _ =>
    }
  }

  lemma OnDrainInv(s: Stream, e: Env)
    requires Inv(s, e)
    ensures Inv(OnDrain(s, e), e)
    ensures Grows(s, OnDrain(s, e))
  {
    hide ClientTalk, FarTalk, DataOf, TotalBytes;
    if !s.cleaned && s.flow.wsBackpressured {
      SyncBackpressureInv(s.(flow := s.flow.(wsBackpressured := false)), e);
    }
  }

  lemma SendDoneInv(s: Stream, e: Env)
    requires Inv(s, e) && s.flow.pendingSends > 0
    ensures Inv(OnLocal(s, e, SendDone), e)
    ensures Grows(s, OnLocal(s, e, SendDone))
  {
    hide ClientTalk, FarTalk, DataOf, TotalBytes;
    var d := s.(flow := s.flow.(pendingSends := s.flow.pendingSends - 1));
    if !d.cleaned && d.flow.localPausedForWs && d.flow.pendingSends == 0 && e.low {
      SyncReadStateInv(d.(flow := d.flow.(localPausedForWs := false)), e);
    }
  }

  lemma FarSendDoneInv(s: Stream, e: Env)
    requires Inv(s, e)
    ensures Inv(OnDrain(s.(sock := s.sock.(pendingDrain := false)), e), e)
    ensures Grows(s, OnDrain(s.(sock := s.sock.(pendingDrain := false)), e))
  {
    hide ClientTalk, FarTalk, DataOf, TotalBytes;
    OnDrainInv(s.(sock := s.sock.(pendingDrain := false)), e);
  }

  lemma QueuedCloseInv(s: Stream, e: Env)
    requires Inv(s, e) && s.sock.closeQueued
    ensures Inv(OnLocal(s, e, QueuedClose), e)
    ensures Grows(s, OnLocal(s, e, QueuedClose))
  {
    hide ClientTalk, FarTalk, DataOf, TotalBytes;
    OnCloseInv(s.(sock := s.sock.(closeQueued := false)), e, []);
  }

  lemma ExternalDataInv(s: Stream, e: Env, c: Chunk)
    requires Inv(s, e) && Possible(s, e, ExternalData(c))
    ensures Inv(OnLocal(s, e, ExternalData(c)), e)
    ensures Grows(s, OnLocal(s, e, ExternalData(c)))
  {
    hide ClientTalk, FarTalk, DataOf, TotalBytes;
    if !s.cleaned {
      var t := s.(took := s.took.(accepted := s.took.accepted + [c]));
      assert InvWith(t, e, [c] + []);
      OnDataInv(t, e, c, High(e.highs, 0), []);
    }
  }

  lemma ExternalEndInv(s: Stream, e: Env)
    requires Inv(s, e) && s.ident.peer.External?
    ensures Inv(OnLocal(s, e, ExternalClose), e) && Inv(OnLocal(s, e, ExternalError), e)
    ensures Grows(s, OnLocal(s, e, ExternalClose)) && Grows(s, OnLocal(s, e, ExternalError))
  {
    hide ClientTalk, FarTalk, DataOf, TotalBytes;
    var t := s.(sock := s.sock.(destroyed := true), took := s.took.(farEnded := true));
    OnCloseInv(t, e, []);
    OnErrorInv(t, e, []);
  }

  lemma TeardownInv(s: Stream, e: Env, notify: bool)
    requires Inv(s, e) && (notify || !e.wsOpen)
    ensures Inv(Abort(s, e, notify), e) && Abort(s, e, notify).cleaned
    ensures Grows(s, Abort(s, e, notify))
  {
    hide ClientTalk, FarTalk, DataOf, TotalBytes;
    if !s.cleaned { AbortInv(s, e, [], notify); }
  }

  /** Any callback, socket event, timer or disconnect keeps the invariant, however late it comes. */
  lemma OnLocalInv(s: Stream, e: Env, ev: Local)
    requires Inv(s, e) && Possible(s, e, ev)
    ensures Inv(OnLocal(s, e, ev), e)
    ensures Grows(s, OnLocal(s, e, ev))
  {
    hide ClientTalk, FarTalk, DataOf, TotalBytes, InvWith, Grows, Abort, Cleanup, SyncReadState, SyncBackpressure,
         WriteFar, OnClose, OnError, OnDrain, OnData;
    GrowsSelf(s);
    match ev
    case SendDone => SendDoneInv(s, e);
    case FarSendDone => FarSendDoneInv(s, e);
    case QueuedClose => QueuedCloseInv(s, e);
    case ExternalData(c) => ExternalDataInv(s, e, c);
    case ExternalDrain => OnDrainInv(s, e);
    case ExternalClose => ExternalEndInv(s, e);
    case ExternalError => ExternalEndInv(s, e);
    case IdleTimeout => TeardownInv(s, e, true);
    case ClientGone => TeardownInv(s, e, false);
    case AgentGone => TeardownInv(s, e, true);
  }
}
