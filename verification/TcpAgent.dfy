/**
 * The local TCP agent: one bridged connection (registerStream and its listeners), and the pending
 * connects waiting for TCP_CONNECT_ACK, as values.
 */
module TcpAgent {
  import opened Frames

  /** As for the tunnel client: the agent's WebSocket, and the levels of its buffers. */
  datatype Env = Env(wsOpen: bool, full: bool, low: bool, high: bool)

  datatype Flow = Flow(localWriteBackpressured: bool, peerPausedRead: bool, pausedForWs: bool, pendingSends: nat)

  datatype Socket = Socket(destroyed: bool, paused: bool)

  /** History: chunks written to the local socket, chunks read from it and sent, who ended the stream. */
  datatype Took = Took(written: seq<Chunk>, read: seq<Chunk>, serverEnded: bool)

  datatype Stream = Stream(streamId: nat, cleaned: bool, flow: Flow, sock: Socket, sent: seq<Frame>, took: Took)

  /** registerStream: the local socket, paused so far, starts to flow. */
  function Registered(streamId: nat): Stream {
    Stream(streamId, false, Flow(false, false, false, 0), Socket(false, false), [], Took([], [], false))
  }

  function Send(s: Stream, e: Env, f: Frame): (r: Stream)
    ensures DataOf(r.sent) == DataOf(s.sent) + if e.wsOpen then Carried(f) else []
    ensures Word(r.sent) == if e.wsOpen then WordStep(Word(s.sent), f) else Word(s.sent)
  {
    DataOfAppend(s.sent, f);
    assert (s.sent + [f])[..|s.sent|] == s.sent;
    if e.wsOpen then s.(sent := s.sent + [f]) else s
  }

  /** syncReadState */
  function SyncReadState(s: Stream, e: Env): Stream {
    if s.cleaned || s.sock.destroyed then s
    else s.(sock := s.sock.(paused := s.flow.peerPausedRead || s.flow.pausedForWs || !e.wsOpen))
  }

  function Drop(s: Stream): Stream {
    s.(cleaned := true, sock := s.sock.(destroyed := true))
  }

  /** handleServerFrame on an entry still in streamedSockets. */
  function FromServer(s: Stream, e: Env, f: Frame): Stream {
    match f
    case TcpData(c) =>
      var w := s.(took := s.took.(written := s.took.written + [c]));
      if e.full && !w.flow.localWriteBackpressured
      then Send(w.(flow := w.flow.(localWriteBackpressured := true)), e, Pause)
      else w
    case TcpClose => Drop(s.(took := s.took.(serverEnded := true)))
    case TcpAbort => Drop(s.(took := s.took.(serverEnded := true)))
    case Pause => SyncReadState(s.(flow := s.flow.(peerPausedRead := true)), e)
    case Resume => SyncReadState(s.(flow := s.flow.(peerPausedRead := false)), e)
    case _ => s
  }

  datatype Local =
    | LocalData(chunk: Chunk) | LocalDrain | LocalClose | LocalError
    | SendDone | WsDrain
    | Shutdown                       // the WebSocket closed: cleanupAll

  predicate Possible(s: Stream, ev: Local) {
    match ev
    case LocalData(_) => !s.sock.destroyed && !s.sock.paused
    case SendDone => s.flow.pendingSends > 0
    case _ => true
  }

  function Unthrottle(s: Stream, e: Env): Stream {
    if !s.cleaned && s.flow.pausedForWs && s.flow.pendingSends == 0 && e.low
    then SyncReadState(s.(flow := s.flow.(pausedForWs := false)), e)
    else s
  }

  function OnLocal(s: Stream, e: Env, ev: Local): Stream {
    match ev
    case LocalData(c) =>
      if s.cleaned || !e.wsOpen then s
      else
        var t := Send(s.(took := s.took.(read := s.took.read + [c]), flow := s.flow.(pendingSends := s.flow.pendingSends + 1)), e, TcpData(c));
        if e.high && !t.flow.pausedForWs then SyncReadState(t.(flow := t.flow.(pausedForWs := true)), e) else t
    case LocalDrain =>
      if s.cleaned || !s.flow.localWriteBackpressured || !e.wsOpen then s
      else Send(s.(flow := s.flow.(localWriteBackpressured := false)), e, Resume)
    case LocalClose => if s.cleaned then s else Drop(Send(s, e, TcpClose))
    case LocalError => if s.cleaned then s else Drop(Send(s, e, TcpAbort))
    case SendDone => Unthrottle(s.(flow := s.flow.(pendingSends := Less(s.flow.pendingSends))), e)
    case WsDrain => Unthrottle(s, e)
    case Shutdown => Drop(s)
  }

  datatype Says = Speaking(pausedPeer: bool) | Done | Garbled

  function WordStep(w: Says, f: Frame): Says {
    if !w.Speaking? then Garbled
    else match f
      case TcpData(_) => w
      case Pause => if w.pausedPeer then Garbled else Speaking(true)
      case Resume => if w.pausedPeer then Speaking(false) else Garbled
      case TcpClose => Done
      case TcpAbort => Done
      case _ => Garbled
  }

  /** Data with alternating PAUSE / RESUME, then at most one terminal frame, the last. */
  function Word(log: seq<Frame>): Says {
    if |log| == 0 then Speaking(false) else WordStep(Word(log[..|log| - 1]), log[|log| - 1])
  }

  ghost predicate Inv(s: Stream, wsOpen: bool) {
    && Word(s.sent) != Garbled
    && (!s.cleaned ==> Word(s.sent).Speaking? && !s.took.serverEnded && !s.sock.destroyed)
    && (!s.cleaned && wsOpen ==> Word(s.sent) == Speaking(s.flow.localWriteBackpressured))
    && (s.took.serverEnded ==> Word(s.sent).Speaking?)
    && (s.cleaned && wsOpen ==> Word(s.sent).Done? || s.took.serverEnded)
    && (s.cleaned ==> s.sock.destroyed)
    && DataOf(s.sent) == s.took.read
    && (!s.cleaned && wsOpen ==> s.sock.paused == (s.flow.peerPausedRead || s.flow.pausedForWs))
  }

  ghost predicate Grows(s: Stream, t: Stream) {
    && t.streamId == s.streamId && s.sent <= t.sent && s.took.written <= t.took.written && (s.cleaned ==> t.cleaned)
    && (s.took.serverEnded ==> t.took.serverEnded)
  }

  /**
   * What a frame of the relay does, seen from the local socket and from the relay: the payload is written, once
   * and whole, unless the socket is gone; the relay is answered with a PAUSE at most; a terminal frame ends the
   * stream without an answer, and no other frame ends it.
   */
  predicate Serves(s: Stream, t: Stream, f: Frame) {
    && t.took.written == s.took.written + Carried(f) && t.took.read == s.took.read
    && (t.sent == s.sent || (f.TcpData? && t.sent == s.sent + [Pause]))
    && (Terminal(f) ==> t.cleaned && t.took.serverEnded && (!s.cleaned ==> t.sock.destroyed))
    && (t.cleaned && !s.cleaned ==> Terminal(f))
  }

  lemma FromServerServes(s: Stream, e: Env, f: Frame)
    ensures Serves(s, FromServer(s, e, f), f)
  {
    hide Word, DataOf;
  }

  /**
   * What a local event does: the relay is sent one frame at most, a chunk only if it was read from the socket just
   * then; nothing is written locally; and a stream that is gone sends nothing any more.
   */
  predicate Acts(s: Stream, t: Stream, ev: Local) {
    && s.sent <= t.sent && |t.sent| <= |s.sent| + 1 && t.took.written == s.took.written
    && (t.took.read == s.took.read || (ev.LocalData? && t.took.read == s.took.read + [ev.chunk]))
    && (t.sent != s.sent && t.sent[|s.sent|].TcpData? ==> ev.LocalData? && t.sent[|s.sent|].chunk == ev.chunk)
    && (s.cleaned ==> t.sent == s.sent && t.took == s.took)
    && (t.cleaned && !s.cleaned ==> t.sock.destroyed)
  }

  lemma OnLocalActs(s: Stream, e: Env, ev: Local)
    requires Possible(s, ev)
    ensures Acts(s, OnLocal(s, e, ev), ev)
  {
    hide Word, DataOf;
  }

  lemma InvCloses(s: Stream, open: bool, open': bool)
    requires Inv(s, open) && (open' ==> open)
    ensures Inv(s, open')
  {
  }

  lemma RegisteredInv(streamId: nat, wsOpen: bool)
    ensures Inv(Registered(streamId), wsOpen)
  {
  }

  lemma FromServerInv(s: Stream, e: Env, f: Frame)
    requires Inv(s, e.wsOpen) && !s.cleaned
    ensures Inv(FromServer(s, e, f), e.wsOpen) && Grows(s, FromServer(s, e, f))
  {
    hide Word, DataOf;
  }

  lemma OnLocalInv(s: Stream, e: Env, ev: Local)
    requires Inv(s, e.wsOpen) && Possible(s, ev) && (ev.Shutdown? ==> !e.wsOpen)
    ensures Inv(OnLocal(s, e, ev), e.wsOpen) && Grows(s, OnLocal(s, e, ev))
  {
    hide Word, DataOf;
  }

  // ---------------------------------------------------------------------------
  // Pending connects
  // ---------------------------------------------------------------------------

  const MAX_SAFE_INTEGER: nat := 9007199254740991

  /** A local connection waiting for its TCP_CONNECT_ACK. `sock` names the local socket. */
  datatype Pending = Pending(sock: nat, targetPort: int, target: string, requestId: nat)

  /** allocateConnectRequestId */
  function NextRequestId(id: nat): nat {
    if id >= MAX_SAFE_INTEGER then 1 else id + 1
  }

  /** The position findIndex returns for a reply: by request id if it has one, else by port and target. */
  function Find(pending: seq<Pending>, reply: ConnectReply): (i: Option<nat>)
    ensures i.Some? ==> i.value < |pending| && Answers(pending[i.value], reply)
    ensures i.Some? ==> forall j :: 0 <= j < i.value ==> !Answers(pending[j], reply)
    ensures i.None? ==> forall j :: 0 <= j < |pending| ==> !Answers(pending[j], reply)
  {
    if |pending| == 0 then None
    else if Answers(pending[0], reply) then Some(0)
    else
      var i := Find(pending[1..], reply);
      assert forall j :: 1 <= j < |pending| ==> pending[j] == pending[1..][j - 1];
      if i.None? then None else Some(i.value + 1)
  }

  /** The predicate handleConnectAck and handleConnectReject search with. */
  predicate Answers(p: Pending, reply: ConnectReply) {
    if 0 < reply.requestId <= MAX_SAFE_INTEGER then p.requestId == reply.requestId
    else reply.port == Some(p.targetPort) && (reply.target == "" || p.target == reply.target)
  }

  function Remove(pending: seq<Pending>, i: nat): seq<Pending>
    requires i < |pending|
  {
    pending[..i] + pending[i + 1..]
  }

  /** removePending, on error or close of a local socket that still waits. */
  function RemoveSock(pending: seq<Pending>, sock: nat): seq<Pending> {
    if |pending| == 0 then []
    else if pending[0].sock == sock then pending[1..]
    else [pending[0]] + RemoveSock(pending[1..], sock)
  }

  // ---------------------------------------------------------------------------
  // What the waiting list does
  // ---------------------------------------------------------------------------

  /** Request ids go round the safe integers from 1 on. */
  lemma RequestIdsCycle(id: nat)
    requires 1 <= id <= MAX_SAFE_INTEGER
    ensures NextRequestId(id) == id % MAX_SAFE_INTEGER + 1
  {
  }

  /**
   * A reply under a usable request id answers exactly the connection that has it, whatever else it says; one
   * without answers the connections for its port, and of these for its target if it names one.
   */
  lemma RepliesFind(p: Pending, port: Option<int>, requestId: nat, target: string)
    ensures 1 <= p.requestId <= MAX_SAFE_INTEGER ==> Answers(p, ConnectReply(port, p.requestId, target))
    ensures 1 <= requestId <= MAX_SAFE_INTEGER && Answers(p, ConnectReply(port, requestId, target)) ==> p.requestId == requestId
    ensures requestId !in {0, p.requestId} && requestId <= MAX_SAFE_INTEGER ==> !Answers(p, ConnectReply(Some(p.targetPort), requestId, p.target))
    ensures requestId == 0 || requestId > MAX_SAFE_INTEGER ==>
              (Answers(p, ConnectReply(port, requestId, target)) <==> port == Some(p.targetPort) && target in {"", p.target})
  {
  }

  /** Removing takes one entry out, and keeps the order of the others. */
  lemma RemoveTakesOne(pending: seq<Pending>, i: nat)
    requires i < |pending|
    ensures var r := Remove(pending, i);
            |r| == |pending| - 1 && forall k :: 0 <= k < |r| ==> r[k] == pending[if k < i then k else k + 1]
  {
  }

  /** A socket that fails while waiting takes its first entry off the list, if it has one, and no other. */
  lemma {:induction false} RemoveSockIsFirst(pending: seq<Pending>, sock: nat) returns (i: nat)
    ensures i <= |pending| && (i < |pending| ==> pending[i].sock == sock) && forall k :: 0 <= k < i ==> pending[k].sock != sock
    ensures RemoveSock(pending, sock) == if i == |pending| then pending else Remove(pending, i)
  {
    if |pending| == 0 || pending[0].sock == sock {
      i := 0;
    } else {
      var rest := pending[1..];
      var j := RemoveSockIsFirst(rest, sock);
      i := j + 1;
      if j < |rest| {
        assert pending[..i] == [pending[0]] + rest[..j] && pending[i + 1..] == rest[j + 1..];
      } else {
        assert pending == [pending[0]] + rest;
      }
    }
  }
}
