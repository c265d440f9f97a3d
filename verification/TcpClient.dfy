/**
 * One TCP stream at the tunnel client: the record handleTcpOpen creates, its local socket and the
 * listeners wired to it, as a value.
 */
module TcpClient {
  import opened Frames

  /** What one step reads: is the WebSocket OPEN; did a local write fill the socket (`full`); is the
      WebSocket over its high-water mark (`high`), or at or below the low one (`low`). */
  datatype Env = Env(wsOpen: bool, full: bool, low: bool, high: bool)

  datatype Flow = Flow(localWriteBackpressured: bool, peerPausedRead: bool, localPausedForWs: bool, pendingSends: nat)

  datatype Socket = Socket(connected: bool, destroyed: bool, paused: bool)

  /** History: chunks written to the local socket, chunks read from it, and who ended the stream. */
  datatype Took = Took(written: seq<Chunk>, read: seq<Chunk>, serverEnded: bool, crossed: bool)

  datatype Stream = Stream(id: nat, cleaned: bool, flow: Flow, sock: Socket, sent: seq<Frame>, took: Took)

  function Opened(id: nat): Stream {
    Stream(id, false, Flow(false, false, false, 0), Socket(false, false, false), [], Took([], [], false, false))
  }

  function Send(s: Stream, e: Env, f: Frame): (r: Stream)
    ensures DataOf(r.sent) == DataOf(s.sent) + if e.wsOpen then Carried(f) else []
    ensures Word(r.sent) == if e.wsOpen then WordStep(Word(s.sent), f) else Word(s.sent)
  {
    DataOfAppend(s.sent, f);
    assert (s.sent + [f])[..|s.sent|] == s.sent;
    if e.wsOpen then s.(sent := s.sent + [f]) else s
  }

  /** cleanupTcpState: the local socket is destroyed; its own `close` comes later and finds the state cleaned. */
  function Cleanup(s: Stream): Stream {
    if s.cleaned then s else s.(cleaned := true, sock := s.sock.(destroyed := true))
  }

  /** A refused TCP_OPEN: an abort is sent and no record is kept. */
  function Refused(id: nat, e: Env): Stream {
    Cleanup(Send(Opened(id), e, TcpAbort))
  }

  /** handleTcpOpen; `admit` says that the host is allowed and the stream limit not reached. */
  function Open(id: nat, e: Env, wellFormed: bool, admit: bool): Stream {
    if wellFormed && admit then Opened(id) else Refused(id, e)
  }

  /** syncSocketReadState on the local socket. */
  function SyncReadState(s: Stream): Stream {
    if s.sock.destroyed then s else s.(sock := s.sock.(paused := s.flow.peerPausedRead || s.flow.localPausedForWs))
  }

  /** handleServerFrame on a stream still in the client's map. */
  function FromServer(s: Stream, e: Env, f: Frame): Stream {
    match f
    case TcpData(c) =>
      if s.sock.destroyed then s
      else
        var w := s.(took := s.took.(written := s.took.written + [c]));
        if e.full && !w.flow.localWriteBackpressured
        then Send(w.(flow := w.flow.(localWriteBackpressured := true)), e, Pause)
        else w
    case TcpClose => Cleanup(s.(took := s.took.(serverEnded := true)))
    case TcpAbort => Cleanup(s.(took := s.took.(serverEnded := true)))
    case Pause => SyncReadState(s.(flow := s.flow.(peerPausedRead := true)))
    case Resume => SyncReadState(s.(flow := s.flow.(peerPausedRead := false)))
    case ReqAbort => s.(cleaned := true, took := s.took.(crossed := true))   // the HTTP path leaves the socket alone
    case _ => s
  }

  datatype Local =
    | Connected | Timeout | LocalData(chunk: Chunk) | LocalDrain | LocalClose | LocalError
    | SendDone
    | Shutdown                       // the WebSocket closed: cleanupTcpStreams

  predicate Possible(s: Stream, e: Env, ev: Local) {
    match ev
    case Connected => !s.sock.connected && !s.sock.destroyed
    case LocalData(_) => s.sock.connected && !s.sock.destroyed && !s.sock.paused
    case LocalDrain => s.sock.connected
    case SendDone => s.flow.pendingSends > 0
    case Shutdown => !e.wsOpen
    case _ => true
  }

  function OnLocal(s: Stream, e: Env, ev: Local): Stream {
    match ev
    case Connected => Send(s.(sock := s.sock.(connected := true)), e, TcpOpenAck)
    case Timeout => if s.cleaned || s.sock.connected then s else Cleanup(Send(s, e, TcpAbort))
    case LocalData(c) =>
      if s.cleaned then s
      else if !e.wsOpen then Cleanup(s)
      else
        var t := Send(s.(took := s.took.(read := s.took.read + [c]), flow := s.flow.(pendingSends := s.flow.pendingSends + 1)), e, TcpData(c));
        if e.high && !t.flow.localPausedForWs then SyncReadState(t.(flow := t.flow.(localPausedForWs := true))) else t
    case LocalDrain =>
      if s.cleaned || !s.flow.localWriteBackpressured || !e.wsOpen then s
      else Send(s.(flow := s.flow.(localWriteBackpressured := false)), e, Resume)
    case LocalClose => if s.cleaned then s else Cleanup(Send(s, e, TcpClose))
    case LocalError => if s.cleaned then s else Cleanup(Send(s, e, TcpAbort))
    case SendDone =>
      var d := s.(flow := s.flow.(pendingSends := Less(s.flow.pendingSends)));
      if !d.cleaned && d.flow.localPausedForWs && d.flow.pendingSends == 0 && e.low
      then SyncReadState(d.(flow := d.flow.(localPausedForWs := false)))
      else d
    case Shutdown => Cleanup(s)
  }

  // ---------------------------------------------------------------------------
  // The language the client speaks, and its invariant
  // ---------------------------------------------------------------------------

  datatype Says = Speaking(acked: bool, pausedPeer: bool) | Done | Garbled

  function WordStep(w: Says, f: Frame): Says {
    if !w.Speaking? then Garbled
    else match f
      case TcpOpenAck => if w.acked then Garbled else w.(acked := true)
      case TcpData(_) => if w.acked then w else Garbled
      case Pause => if w.pausedPeer then Garbled else w.(pausedPeer := true)
      case Resume => if w.pausedPeer then w.(pausedPeer := false) else Garbled
      case TcpClose => Done
      case TcpAbort => Done
      case _ => Garbled
  }

  /** One TCP_OPEN_ACK before any data, alternating PAUSE / RESUME, at most one terminal frame, the last. */
  function Word(log: seq<Frame>): Says {
    if |log| == 0 then Speaking(false, false) else WordStep(Word(log[..|log| - 1]), log[|log| - 1])
  }

  ghost predicate Inv(s: Stream, wsOpen: bool) {
    && Word(s.sent) != Garbled
    && (!s.cleaned ==> Word(s.sent).Speaking? && !s.took.serverEnded && !s.took.crossed && !s.sock.destroyed)
    && (!s.cleaned && wsOpen ==> Word(s.sent) == Speaking(s.sock.connected, s.flow.localWriteBackpressured))
    && (s.took.serverEnded ==> Word(s.sent).Speaking?)
    && (s.cleaned && wsOpen ==> Word(s.sent).Done? || s.took.serverEnded || s.took.crossed)
    && (s.cleaned && !s.took.crossed ==> s.sock.destroyed)
    && DataOf(s.sent) == s.took.read
    && (!s.sock.destroyed && !s.took.crossed ==> s.sock.paused == (s.flow.peerPausedRead || s.flow.localPausedForWs))
  }

  /** What no step ever takes back. */
  ghost predicate Grows(s: Stream, t: Stream) {
    && t.id == s.id && s.sent <= t.sent && s.took.written <= t.took.written && (s.cleaned ==> t.cleaned)
    && (s.took.serverEnded ==> t.took.serverEnded)
  }

  /**
   * What a frame of the relay does, seen from the local socket and from the relay: the payload is written, once
   * and whole, unless the socket is gone; the relay is answered with a PAUSE at most; a terminal frame ends the
   * stream without an answer, and no other frame ends it, but the HTTP-mode abort.
   */
  predicate Serves(s: Stream, t: Stream, f: Frame) {
    && t.took.written == s.took.written + (if s.sock.destroyed then [] else Carried(f)) && t.took.read == s.took.read
    && (t.sent == s.sent || (f.TcpData? && t.sent == s.sent + [Pause]))
    && (Terminal(f) ==> t.cleaned && t.took.serverEnded && (!s.cleaned ==> t.sock.destroyed))
    && (t.cleaned && !s.cleaned ==> Terminal(f) || f.ReqAbort?)
  }

  lemma FromServerServes(s: Stream, e: Env, f: Frame)
    ensures Serves(s, FromServer(s, e, f), f)
  {
    hide Word, DataOf;
  }

  /**
   * What a local event does: the relay is sent one frame at most, a chunk only if it was read from the socket just
   * then; nothing is written locally; and a stream that is gone sends nothing any more. (Only a connection that is
   * made on a stream the HTTP path took is still confirmed.)
   */
  predicate Acts(s: Stream, t: Stream, ev: Local) {
    && s.sent <= t.sent && |t.sent| <= |s.sent| + 1 && t.took.written == s.took.written
    && (t.took.read == s.took.read || (ev.LocalData? && t.took.read == s.took.read + [ev.chunk]))
    && (t.sent != s.sent && t.sent[|s.sent|].TcpData? ==> ev.LocalData? && t.sent[|s.sent|].chunk == ev.chunk)
    && (s.cleaned && !ev.Connected? ==> t.sent == s.sent && t.took == s.took)
    && (t.cleaned && !s.cleaned ==> t.sock.destroyed)
  }

  lemma OnLocalActs(s: Stream, e: Env, ev: Local)
    requires Possible(s, e, ev)
    ensures Acts(s, OnLocal(s, e, ev), ev)
  {
    hide Word, DataOf;
  }

  lemma InvCloses(s: Stream, open: bool, open': bool)
    requires Inv(s, open) && (open' ==> open)
    ensures Inv(s, open')
  {
  }

  lemma OpenInv(id: nat, e: Env, wellFormed: bool, admit: bool)
    ensures Inv(Open(id, e, wellFormed, admit), e.wsOpen)
  {
  }

  lemma FromServerInv(s: Stream, e: Env, f: Frame)
    requires Inv(s, e.wsOpen) && !s.cleaned
    ensures Inv(FromServer(s, e, f), e.wsOpen) && Grows(s, FromServer(s, e, f))
  {
    hide Word, DataOf;
  }

  lemma OnLocalInv(s: Stream, e: Env, ev: Local)
    requires Inv(s, e.wsOpen) && Possible(s, e, ev) && !s.took.crossed
    ensures Inv(OnLocal(s, e, ev), e.wsOpen) && Grows(s, OnLocal(s, e, ev))
  {
    hide Word, DataOf;
  }
}
