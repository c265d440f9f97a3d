/**
 * One TCP stream inside the relay, as a value: the stream record of StreamManager together with its
 * socket (a VirtualSocket when the far side is an agent, a real socket otherwise) and the listeners
 * TcpRouter wires to it. Every function below is the NET effect of one entry point, with the
 * re-entrant events it triggers already played out; RelayStreamObject proves that the step-by-step
 * code has exactly these effects.
 */
module RelayStream {
  import opened Frames

  /** Who sits behind the stream's socket. */
  datatype Peer = External | Agent(ws: nat)

  /**
   * What one step reads from its surroundings: whether the two WebSockets are OPEN, whether a write
   * left the far side over its high-water mark (`full`), whether a completed send left the buffer at
   * or below the low-water mark (`low`), and, per forwarded chunk, whether the client WebSocket was
   * then over its high-water mark (`highs`). `limit` is MAX_DEST_BUFFER_BYTES.
   */
  datatype Env = Env(wsOpen: bool, agentOpen: bool, full: bool, low: bool, highs: seq<bool>, limit: nat)

  /** What a stream is about; never changes. A request id of 0 and a target of "" mean "none". */
  datatype Identity = Identity(id: nat, ws: nat, peer: Peer, serverPort: int, requestId: nat, target: string) {
    /** The agent's WebSocket, where the far side is an agent. */
    function AgentWs(): nat { if peer.Agent? then peer.ws else 0 }
  }

  /** The pause bookkeeping of the stream record. */
  datatype Flow = Flow(agentPaused: bool, wsBackpressured: bool, clientPausedForAgent: bool,
                       peerPausedRead: bool, localPausedForWs: bool, pendingSends: nat)

  /** The socket: closure variables of createVirtualSocket (a real socket uses only the first two). */
  datatype Socket = Socket(destroyed: bool, paused: bool, buffered: seq<Chunk>, bufferedBytes: nat,
                           pendingDrain: bool, agentNotified: bool, closeQueued: bool)

  /** History: the frames sent to the tunnel client and to the far side. */
  datatype Sent = Sent(toClient: seq<Frame>, toFar: seq<Frame>)

  /**
   * History: the chunks taken from the far side and from the tunnel client, which of them ended the
   * stream, whether an HTTP-mode frame hit it, and whether the HTTP cleanup took the record away.
   */
  datatype Took = Took(accepted: seq<Chunk>, received: seq<Chunk>, clientEnded: bool, farEnded: bool, crossed: bool, taken: bool)

  /** The stream record. `cleanups` is how many times its onCleanup has been called. */
  datatype Stream = Stream(ident: Identity, cleaned: bool, abortSent: bool, cleanups: nat, awaitingClientAck: bool,
                           flow: Flow, sock: Socket, sent: Sent, took: Took)

  predicate High(highs: seq<bool>, i: nat) {
    i < |highs| && highs[i]
  }

  function Fresh(id: nat, ws: nat, peer: Peer, port: int, requestId: nat, target: string): Stream {
    Stream(Identity(id, ws, peer, port, requestId, target), false, false, 0, peer.Agent?,
           Flow(false, false, false, false, false, 0),
           Socket(false, false, [], 0, false, false, false),
           Sent([], []), Took([], [], false, false, false, false))
  }

  /** Nothing was taken in from either side, and nobody new has ended the stream. */
  predicate SameInputs(s: Stream, t: Stream) {
    t.ident == s.ident && t.awaitingClientAck == s.awaitingClientAck && t.took == s.took
  }

  // ---------------------------------------------------------------------------
  // Sending
  // ---------------------------------------------------------------------------

  function ToClient(s: Stream, e: Env, f: Frame): (r: Stream)
    ensures DataOf(r.sent.toClient) == DataOf(s.sent.toClient) + if e.wsOpen then Carried(f) else []
    ensures ClientTalk(r.sent.toClient) == if e.wsOpen then TalkStep(ClientTalk(s.sent.toClient), f) else ClientTalk(s.sent.toClient)
  {
    DataOfAppend(s.sent.toClient, f);
    assert (s.sent.toClient + [f])[..|s.sent.toClient|] == s.sent.toClient;
    if e.wsOpen then s.(sent := s.sent.(toClient := s.sent.toClient + [f])) else s
  }

  function ToFar(s: Stream, f: Frame): (r: Stream)
    ensures DataOf(r.sent.toFar) == DataOf(s.sent.toFar) + Carried(f)
    ensures FarTalk(r.sent.toFar) == FarStep(FarTalk(s.sent.toFar), f)
  {
    DataOfAppend(s.sent.toFar, f);
    assert (s.sent.toFar + [f])[..|s.sent.toFar|] == s.sent.toFar;
    s.(sent := s.sent.(toFar := s.sent.toFar + [f]))
  }

  /** A frame for the agent: nothing is sent for a real socket, or when the agent is not OPEN. */
  function ToAgent(s: Stream, e: Env, f: Frame): (r: Stream)
    ensures SameInputs(s, r)
  {
    if s.ident.peer.Agent? && e.agentOpen then ToFar(s, f) else s
  }

  // ---------------------------------------------------------------------------
  // Teardown
  // ---------------------------------------------------------------------------

  /** socket.destroy(), called from the stream cleanup: the `close` it emits finds the stream cleaned. */
  function DestroySocket(s: Stream, e: Env): (r: Stream)
    ensures SameInputs(s, r)
  {
    if s.sock.destroyed then s
    else
      var d := s.(sock := s.sock.(destroyed := true));
      if d.ident.peer.Agent? && !d.sock.agentNotified && e.agentOpen
      then ToAgent(d.(sock := d.sock.(agentNotified := true)), e, TcpClose)
      else d
  }

  /** socket.abort(): only virtual sockets have it; its `close` event is queued for later. */
  function AbortSocket(s: Stream, e: Env): (r: Stream)
    ensures SameInputs(s, r)
  {
    if s.sock.destroyed || s.ident.peer.External? then s
    else ToAgent(s.(sock := s.sock.(destroyed := true, agentNotified := true, closeQueued := true)), e, TcpAbort)
  }

  function Cleanup(s: Stream, e: Env): (r: Stream)
    ensures SameInputs(s, r)
  {
    if s.cleaned then s
    else
      var d := DestroySocket(s.(cleaned := true), e);
      d.(cleanups := d.cleanups + 1)
  }

  function Abort(s: Stream, e: Env, notify: bool): (r: Stream)
    ensures SameInputs(s, r)
  {
    if s.cleaned then s
    else
      var a := AbortSocket(s, e);
      var b := if notify && e.wsOpen && !a.abortSent then ToClient(a.(abortSent := true), e, TcpAbort) else a;
      Cleanup(b, e)
  }

  /** The `close` listener. */
  function OnClose(s: Stream, e: Env): (r: Stream)
    ensures SameInputs(s, r)
  {
    if s.cleaned then s else Cleanup(ToClient(s, e, TcpClose), e)
  }

  /** The `error` listener. */
  function OnError(s: Stream, e: Env): (r: Stream)
    ensures SameInputs(s, r)
  {
    if s.cleaned then s else Abort(ToClient(s, e, TcpAbort), e, false)
  }

  /** The HTTP-mode cleanup applied to a TCP stream: it neither destroys the socket nor runs onCleanup. */
  function CrossModeCleanup(s: Stream): Stream {
    if s.cleaned then s else s.(cleaned := true, took := s.took.(crossed := true, taken := true))
  }

  // ---------------------------------------------------------------------------
  // Far side -> tunnel client
  // ---------------------------------------------------------------------------

  function PauseSocket(s: Stream, e: Env): (r: Stream)
    ensures SameInputs(s, r)
  {
    if s.sock.paused then s else ToAgent(s.(sock := s.sock.(paused := true)), e, Pause)
  }

  /**
   * The `data` listener: forward the chunk, and throttle the socket when the WebSocket is over its
   * high-water mark. The read state can only move to paused here.
   */
  function OnData(s: Stream, e: Env, c: Chunk, high: bool): (r: Stream)
    ensures SameInputs(s, r)
  {
    if s.cleaned then s
    else if !e.wsOpen then Abort(s, e, true)
    else
      var f := ToClient(s.(flow := s.flow.(pendingSends := s.flow.pendingSends + 1)), e, TcpData(c));
      if high && !f.flow.localPausedForWs
      then if f.sock.destroyed then f.(flow := f.flow.(localPausedForWs := true)) else PauseSocket(f.(flow := f.flow.(localPausedForWs := true)), e)
      else f
  }

  /** The chunks a resume releases, each going through the `data` listener. */
  function EmitAll(s: Stream, e: Env, chunks: seq<Chunk>, highs: seq<bool>): (r: Stream)
    ensures SameInputs(s, r)
    decreases |chunks|
  {
    if |chunks| == 0 then s
    else EmitAll(OnData(s, e, chunks[0], High(highs, 0)), e, chunks[1..], if |highs| == 0 then [] else highs[1..])
  }

  function ResumeSocket(s: Stream, e: Env): (r: Stream)
    ensures SameInputs(s, r)
  {
    if !s.sock.paused then s
    else ToAgent(EmitAll(s.(sock := s.sock.(paused := false, buffered := [], bufferedBytes := 0)), e, s.sock.buffered, e.highs), e, Resume)
  }

  function SyncReadState(s: Stream, e: Env): (r: Stream)
    ensures SameInputs(s, r)
  {
    if s.sock.destroyed then s
    else if s.flow.peerPausedRead || s.flow.localPausedForWs then PauseSocket(s, e)
    else ResumeSocket(s, e)
  }

  /** VirtualSocket.pushInbound: a chunk from the agent. */
  function PushInbound(s: Stream, e: Env, c: Chunk): Stream {
    if s.sock.destroyed then s
    else
      var t := s.(took := s.took.(accepted := s.took.accepted + [c]));
      if !t.sock.paused then OnData(t, e, c, High(e.highs, 0))
      else if t.sock.bufferedBytes + |c| > e.limit then AbortSocket(t, e)
      else t.(sock := t.sock.(buffered := t.sock.buffered + [c], bufferedBytes := t.sock.bufferedBytes + |c|))
  }

  // ---------------------------------------------------------------------------
  // Tunnel client -> far side, and the back-pressure on that direction
  // ---------------------------------------------------------------------------

  function SyncBackpressure(s: Stream, e: Env): (r: Stream)
    ensures SameInputs(s, r)
  {
    var shouldPause := s.flow.agentPaused || s.flow.wsBackpressured;
    if shouldPause && !s.flow.clientPausedForAgent then ToClient(s.(flow := s.flow.(clientPausedForAgent := true)), e, Pause)
    else if !shouldPause && s.flow.clientPausedForAgent then ToClient(s.(flow := s.flow.(clientPausedForAgent := false)), e, Resume)
    else s
  }

  /** socket.write(chunk) and its answer. */
  function WriteFar(s: Stream, e: Env, c: Chunk): (r: (Stream, bool))
    ensures SameInputs(s, r.0)
  {
    if s.sock.destroyed then (s, false)
    else if s.ident.peer.External? then (ToFar(s, TcpData(c)), !e.full)
    else if !e.agentOpen then (s, false)
    else (ToAgent(if e.full then s.(sock := s.sock.(pendingDrain := true)) else s, e, TcpData(c)), !e.full)
  }

  /** The `drain` listener. */
  function OnDrain(s: Stream, e: Env): (r: Stream)
    ensures SameInputs(s, r)
  {
    if s.cleaned || !s.flow.wsBackpressured then s
    else SyncBackpressure(s.(flow := s.flow.(wsBackpressured := false)), e)
  }

  function ReplyTo(i: Identity): ConnectReply {
    ConnectReply(Some(i.serverPort), i.requestId, i.target)
  }

  // ---------------------------------------------------------------------------
  // The steps of a stream
  // ---------------------------------------------------------------------------

  /** StreamManager.handleClientFrame on a stream that is still registered. */
  function FromClient(s: Stream, e: Env, f: Frame): Stream {
    match f
    case ResMeta(_, _) => Abort(s.(took := s.took.(crossed := true)), e, false)
    case ResData(_) => CrossModeCleanup(s)
    case ResEnd => CrossModeCleanup(s)
    case ResAbort => CrossModeCleanup(s)
    case Pause => SyncReadState(s.(flow := s.flow.(peerPausedRead := true)), e)
    case Resume => SyncReadState(s.(flow := s.flow.(peerPausedRead := false)), e)
    case TcpData(c) =>
      if s.sock.destroyed then s
      else
        var (w, ok) := WriteFar(s.(took := s.took.(received := s.took.received + [c])), e, c);
        if !ok && !w.flow.wsBackpressured then SyncBackpressure(w.(flow := w.flow.(wsBackpressured := true)), e) else w
    case TcpClose => Cleanup(s.(took := s.took.(clientEnded := true)), e)
    case TcpOpenAck =>
      if !s.awaitingClientAck then s
      else ToAgent(s.(awaitingClientAck := false), e, TcpConnectAck(ReplyTo(s.ident)))
    case TcpAbort =>
      var t := s.(took := s.took.(clientEnded := true));
      Abort(if t.awaitingClientAck && t.ident.peer.Agent? && e.agentOpen
            then ToAgent(t.(awaitingClientAck := false), e, ConnectRejected(ReplyTo(s.ident)))
            else t, e, false)
    case _ => s
  }

  /** TcpAgentServer._handleFrame on a stream of that agent that is still registered. */
  function FromAgent(s: Stream, e: Env, f: Frame): Stream {
    if s.awaitingClientAck then s
    else match f
      case TcpData(c) => PushInbound(s, e, c)
      case TcpClose =>
        if s.sock.destroyed then s
        else OnClose(s.(sock := s.sock.(destroyed := true, agentNotified := true), took := s.took.(farEnded := true)), e)
      case TcpAbort =>
        if s.sock.destroyed then s
        else OnError(s.(sock := s.sock.(destroyed := true, agentNotified := true), took := s.took.(farEnded := true)), e)
      case Pause => SyncBackpressure(s.(flow := s.flow.(agentPaused := true)), e)
      case Resume => SyncBackpressure(s.(flow := s.flow.(agentPaused := false)), e)
      case _ => s
  }

  /** Everything that can happen to a stream other than a frame: callbacks, socket events, timers, teardown. */
  datatype Local =
    | SendDone                  // a TCP_DATA send to the tunnel client completed
    | FarSendDone               // a TCP_DATA send to the agent completed
    | QueuedClose               // the queued `close` of an aborted virtual socket
    | ExternalData(chunk: Chunk) | ExternalDrain | ExternalClose | ExternalError
    | IdleTimeout
    | ClientGone                // the tunnel client disconnected
    | AgentGone                 // the agent disconnected

  /** Which of these can happen in a given state. */
  predicate Possible(s: Stream, e: Env, ev: Local) {
    match ev
    case SendDone => s.flow.pendingSends > 0
    case FarSendDone => s.ident.peer.Agent?
    case QueuedClose => s.sock.closeQueued
    case ExternalData(_) => s.ident.peer.External? && !s.sock.destroyed && !s.sock.paused
    case ExternalDrain => s.ident.peer.External?
    case ExternalClose => s.ident.peer.External?
    case ExternalError => s.ident.peer.External?
    case ClientGone => !e.wsOpen
    case _ => true
  }

  function OnLocal(s: Stream, e: Env, ev: Local): Stream {
    match ev
    case SendDone =>
      var d := s.(flow := s.flow.(pendingSends := Less(s.flow.pendingSends)));
      if !d.cleaned && d.flow.localPausedForWs && d.flow.pendingSends == 0 && e.low
      then SyncReadState(d.(flow := d.flow.(localPausedForWs := false)), e)
      else d
    case FarSendDone =>
      if !s.sock.destroyed && s.sock.pendingDrain && e.low then OnDrain(s.(sock := s.sock.(pendingDrain := false)), e) else s
    case QueuedClose => OnClose(s.(sock := s.sock.(closeQueued := false)), e)
    case ExternalData(c) => OnData(if s.cleaned then s else s.(took := s.took.(accepted := s.took.accepted + [c])), e, c, High(e.highs, 0))
    case ExternalDrain => OnDrain(s, e)
    case ExternalClose => OnClose(s.(sock := s.sock.(destroyed := true), took := s.took.(farEnded := true)), e)
    case ExternalError => OnError(s.(sock := s.sock.(destroyed := true), took := s.took.(farEnded := true)), e)
    case IdleTimeout => Abort(s, e, true)
    case ClientGone => Abort(s, e, false)
    case AgentGone => Abort(s, e, true)
  }

  // ---------------------------------------------------------------------------
  // The languages spoken on the two sides
  // ---------------------------------------------------------------------------

  /** What the frames sent to the tunnel client amount to. `closed`: the terminal frame was TCP_CLOSE. */
  datatype Talk = Unopened | Talking(pausedPeer: bool) | Ended(closed: bool) | Malformed

  function TalkStep(t: Talk, f: Frame): Talk {
    match f
    case TcpOpen(_, _, _) => if t == Unopened then Talking(false) else Malformed
    case TcpData(_) => if t.Talking? then t else Malformed
    case Pause => if t == Talking(false) then Talking(true) else Malformed
    case Resume => if t == Talking(true) then Talking(false) else Malformed
    case TcpClose => if t.Talking? then Ended(true) else Malformed
    case TcpAbort => if t.Talking? then Ended(false) else Malformed
    case _ => Malformed
  }

  /**
   * TCP_OPEN, then data with strictly alternating PAUSE / RESUME, then at most one TCP_CLOSE or
   * TCP_ABORT with nothing after it: anything else is Malformed.
   */
  function ClientTalk(log: seq<Frame>): Talk {
    if |log| == 0 then Unopened else TalkStep(ClientTalk(log[..|log| - 1]), log[|log| - 1])
  }

  datatype Reply = NoReply | Acknowledged | Rejected

  /** `closed`: the terminal frame was TCP_CLOSE. */
  datatype FarWord = FarWord(reply: Reply, ended: bool, closed: bool) | FarMalformed

  function FarStep(t: FarWord, f: Frame): FarWord {
    if t.FarMalformed? then t
    else match f
      case TcpConnectAck(_) => if t.reply == NoReply && !t.ended then t.(reply := Acknowledged) else FarMalformed
      case ConnectRejected(_) => if t.reply == NoReply && !t.ended then t.(reply := Rejected) else FarMalformed
      case TcpData(_) => if t.ended then FarMalformed else t
      case TcpClose => if t.ended then FarMalformed else t.(ended := true, closed := true)
      case TcpAbort => if t.ended then FarMalformed else t.(ended := true)
      case Pause => t
      case Resume => t
      case _ => FarMalformed
  }

  /**
   * At most one connect-level reply, at most one TCP_CLOSE or TCP_ABORT, no data after it: anything
   * else is malformed. (A RESUME may still follow the terminal frame.)
   */
  function FarTalk(log: seq<Frame>): FarWord {
    if |log| == 0 then FarWord(NoReply, false, false) else FarStep(FarTalk(log[..|log| - 1]), log[|log| - 1])
  }
}
