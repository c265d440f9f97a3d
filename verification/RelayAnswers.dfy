/**
 * What the relay does about one TCP stream, input by input: what ends it, what its tunnel client is told, what
 * the far side is told, and which reasons to pause come and go. Everything is said of the frame logs, whatever
 * the order in which re-entrant events play out.
 */
module RelayAnswers {
  import opened Frames
  import opened RelayStream
  import opened RelayStreamInvariant
  import RC = RelayControl
  import SE = RelayStreamEffects

  /** A frame of the tunnel client or of the agent, or any other event. */
  datatype Input = OfClient(f: Frame) | OfAgent(f: Frame) | Happens(ev: Local)

  function Next(s: Stream, e: Env, i: Input): Stream {
    match i
    case OfClient(f) => FromClient(s, e, f)
    case OfAgent(f) => FromAgent(s, e, f)
    case Happens(ev) => OnLocal(s, e, ev)
  }

  /** What can come in on a registered stream. */
  predicate Arrives(s: Stream, e: Env, i: Input) {
    !s.cleaned && (i.OfAgent? ==> s.ident.peer.Agent?) && (i.Happens? ==> Possible(s, e, i.ev))
  }

  /** A frame of the agent counts once the client has confirmed the stream; its payload while the virtual socket is alive. */
  predicate Counts(s: Stream, i: Input) {
    i.OfAgent? && !s.awaitingClientAck
  }

  predicate Heard(s: Stream, i: Input) {
    Counts(s, i) && !s.sock.destroyed
  }

  // ---------------------------------------------------------------------------
  // Payload
  // ---------------------------------------------------------------------------

  /** The last reason not to read goes: the client asks for more, or its WebSocket has caught up. */
  predicate Reopens(s: Stream, e: Env, i: Input) {
    && s.sock.paused && !s.sock.destroyed
    && ((i.OfClient? && i.f.Resume? && !s.flow.localPausedForWs) || (CatchesUp(s, e, i) && !s.flow.peerPausedRead))
  }

  /** The last outstanding send to a client that was too slow completes, and finds its buffer low. */
  predicate CatchesUp(s: Stream, e: Env, i: Input) {
    i.Happens? && i.ev.SendDone? && s.flow.localPausedForWs && s.flow.pendingSends == 1 && e.low
  }

  /** The chunks that go on to the client now. */
  function Forwards(s: Stream, e: Env, i: Input): seq<Chunk> {
    if Reopens(s, e, i) then s.sock.buffered
    else if Heard(s, i) && !s.sock.paused then Carried(i.f)
    else if i.Happens? && i.ev.ExternalData? then [i.ev.chunk]
    else []
  }

  /** A chunk of the agent that cannot go on now, and does not fit in the buffer. */
  predicate Overflows(s: Stream, e: Env, i: Input) {
    Heard(s, i) && i.f.TcpData? && s.sock.paused && s.sock.bufferedBytes + |i.f.chunk| > e.limit
  }

  /** What is held back afterwards. */
  function HeldBack(s: Stream, e: Env, i: Input): seq<Chunk> {
    if Reopens(s, e, i) then []
    else if Heard(s, i) && s.sock.paused && !Overflows(s, e, i) then s.sock.buffered + Carried(i.f)
    else s.sock.buffered
  }

  /** The client's payload goes on to the far side at once, while there is a socket. */
  function Writes(s: Stream, i: Input): seq<Frame> {
    if i.OfClient? && i.f.TcpData? && !s.sock.destroyed then [i.f] else []
  }

  // ---------------------------------------------------------------------------
  // Endings
  // ---------------------------------------------------------------------------

  /** The client ended the stream, or sent it a frame of the HTTP mode. */
  predicate ByClient(i: Input) {
    i.OfClient? && (Terminal(i.f) || i.f.ResMeta? || i.f.ResData? || i.f.ResEnd? || i.f.ResAbort?)
  }

  /** The far side ended it, in order or by failing; a virtual socket that overflowed ends late, and in order. */
  predicate ByFarSide(s: Stream, i: Input) {
    (Heard(s, i) && Terminal(i.f)) || (i.Happens? && (i.ev.ExternalClose? || i.ev.ExternalError? || i.ev.QueuedClose?))
  }

  predicate FarSideFails(i: Input) {
    (i.OfAgent? && i.f.TcpAbort?) || (i.Happens? && i.ev.ExternalError?)
  }

  /** The relay ends it: a timer, a peer that is gone, or a chunk for a client that is gone. */
  predicate ByRelay(s: Stream, e: Env, i: Input) {
    || (i.Happens? && (i.ev.IdleTimeout? || i.ev.ClientGone? || i.ev.AgentGone?))
    || (!e.wsOpen && Forwards(s, e, i) != [])
  }

  predicate Ends(s: Stream, e: Env, i: Input) {
    ByClient(i) || ByFarSide(s, i) || ByRelay(s, e, i)
  }

  /** How the client learns of an ending that is not its own. */
  function Farewell(s: Stream, i: Input): seq<Frame> {
    if ByFarSide(s, i) then [if FarSideFails(i) then TcpAbort else TcpClose]
    else if i.Happens? && (i.ev.IdleTimeout? || i.ev.AgentGone?) then [TcpAbort]
    else []
  }

  /** How the agent does, if its virtual socket was still alive: TCP_CLOSE says that the client has closed, and nothing else. */
  function FarFarewell(s: Stream, e: Env, i: Input): seq<Frame> {
    if s.sock.destroyed then []
    else if i.OfClient? && i.f.TcpClose? then [TcpClose]
    else if (i.OfClient? && (i.f.TcpAbort? || i.f.ResMeta?)) || ByRelay(s, e, i) || Overflows(s, e, i) then [TcpAbort]
    else []
  }

  // ---------------------------------------------------------------------------
  // What is said
  // ---------------------------------------------------------------------------

  function DataFrames(chunks: seq<Chunk>): seq<Frame> {
    seq(|chunks|, k requires 0 <= k < |chunks| => TcpData(chunks[k]))
  }

  /** The far side has reasons not to be written to. */
  predicate Busy(s: Stream) {
    s.flow.agentPaused || s.flow.wsBackpressured
  }

  /** A change of the pause. */
  function Change(was: bool, now: bool): seq<Frame> {
    if was == now then [] else if now then [Pause] else [Resume]
  }

  /** What the client is told, while its WebSocket is OPEN. */
  function Told(s: Stream, t: Stream, e: Env, i: Input): seq<Frame> {
    DataFrames(Forwards(s, e, i)) + (if Ends(s, e, i) then Farewell(s, i) else Change(Busy(s), Busy(t)))
  }

  /** The connect-level reply an input settles. */
  function Reply(s: Stream, i: Input): seq<Frame> {
    if !s.awaitingClientAck || !i.OfClient? then []
    else if i.f.TcpOpenAck? then [TcpConnectAck(ReplyTo(s.ident))]
    else if i.f.TcpAbort? then [ConnectRejected(ReplyTo(s.ident))]
    else []
  }

  /** The agent hears of pauses in the reading of a stream that goes on. Reopening ends in RESUME, whatever has happened meanwhile. */
  ghost function Reading(s: Stream, t: Stream, e: Env, i: Input): seq<Frame> {
    if Reopens(s, e, i) then (if e.wsOpen && RC.SomeHigh(e.highs, |s.sock.buffered|) then [Pause] else []) + [Resume]
    else if t.sock.paused && !s.sock.paused && !Ends(s, e, i) then [Pause]
    else []
  }

  /** What the far side is told; only an agent that is OPEN hears more than the payload. */
  ghost function FarTold(s: Stream, t: Stream, e: Env, i: Input): seq<Frame> {
    if s.ident.peer.External? then Writes(s, i)
    else if !e.agentOpen then []
    else Writes(s, i) + Reply(s, i) + FarFarewell(s, e, i) + Reading(s, t, e, i)
  }

  /** What one input makes of a stream. */
  ghost predicate Answers(s: Stream, t: Stream, e: Env, i: Input) {
    && (t.cleaned <==> Ends(s, e, i))
    && t.sent.toClient == s.sent.toClient + (if e.wsOpen then Told(s, t, e, i) else [])
    && t.sent.toFar == s.sent.toFar + FarTold(s, t, e, i)
    && t.sock.buffered == HeldBack(s, e, i)
    && (!t.cleaned ==> (t.sock.destroyed <==> s.sock.destroyed || Overflows(s, e, i)))
  }

  // ---------------------------------------------------------------------------
  // Reasons to pause
  // ---------------------------------------------------------------------------

  /** A payload of the client that the far side has not taken, or has taken with its buffer over high water. */
  predicate Refused(s: Stream, e: Env, i: Input) {
    i.OfClient? && i.f.TcpData? && !s.sock.destroyed && (e.full || (s.ident.peer.Agent? && !e.agentOpen))
  }

  /** The far side has caught up. */
  predicate Drains(s: Stream, e: Env, i: Input) {
    i.Happens? && (i.ev.ExternalDrain? || (i.ev.FarSendDone? && !s.sock.destroyed && s.sock.pendingDrain && e.low))
  }

  /** What one input makes of the pause bookkeeping of a stream that survives it. */
  ghost predicate FlagsMove(s: Stream, t: Stream, e: Env, i: Input) {
    && t.awaitingClientAck == (s.awaitingClientAck && !(i.OfClient? && i.f.TcpOpenAck?))
    && t.flow.agentPaused == (if Counts(s, i) && i.f.Pause? then true else if Counts(s, i) && i.f.Resume? then false else s.flow.agentPaused)
    && t.flow.wsBackpressured == (if Refused(s, e, i) then true else if Drains(s, e, i) then false else s.flow.wsBackpressured)
    && t.flow.peerPausedRead == (if i.OfClient? && i.f.Pause? then true else if i.OfClient? && i.f.Resume? then false else s.flow.peerPausedRead)
    && t.flow.localPausedForWs == (if e.wsOpen && RC.SomeHigh(e.highs, |Forwards(s, e, i)|) then true
                                   else if CatchesUp(s, e, i) then false
                                   else s.flow.localPausedForWs)
    && t.flow.pendingSends == s.flow.pendingSends + |Forwards(s, e, i)| - (if i.Happens? && i.ev.SendDone? then 1 else 0)
    && t.sock.pendingDrain == (if s.ident.peer.Agent? && e.agentOpen && e.full && Refused(s, e, i) then true
                               else if i.Happens? && i.ev.FarSendDone? && Drains(s, e, i) then false
                               else s.sock.pendingDrain)
  }

  // ---------------------------------------------------------------------------
  // The parts of a step
  // ---------------------------------------------------------------------------

  /** What the steps rely on of a registered stream. */
  ghost predicate Ready(s: Stream) {
    && !s.cleaned && !s.abortSent
    && (s.sock.destroyed ==> s.ident.peer.Agent? && !s.awaitingClientAck)
    && (!s.sock.destroyed ==> !s.sock.agentNotified)
    && (s.ident.peer.External? ==> !s.awaitingClientAck && s.sock.buffered == [])
    && (!s.sock.paused ==> s.sock.buffered == [])
  }

  lemma LiveIsReady(s: Stream, e: Env)
    requires Inv(s, e) && !s.cleaned
    ensures Ready(s) && FlowExact(s) && ReadExact(s)
  {
    hide ClientTalk, FarTalk, DataOf, TotalBytes;
  }

  lemma AbortTold(s: Stream, e: Env, notify: bool)
    requires Ready(s)
    ensures var t := Abort(s, e, notify);
            && t.cleaned && t.ident == s.ident && t.sent.toClient == s.sent.toClient + (if notify && e.wsOpen then [TcpAbort] else [])
            && t.sent.toFar == s.sent.toFar + (if s.sock.destroyed || s.ident.peer.External? || !e.agentOpen then [] else [TcpAbort])
            && t.sock.buffered == s.sock.buffered && t.sock.paused == s.sock.paused
  {
    hide ClientTalk, FarTalk, DataOf, TalkStep, FarStep;
    assert s.sent.toClient + [] == s.sent.toClient && s.sent.toFar + [] == s.sent.toFar;
  }

  lemma CleanupTold(s: Stream, e: Env)
    requires Ready(s)
    ensures var t := Cleanup(s, e);
            && t.cleaned && t.ident == s.ident && t.sent.toClient == s.sent.toClient
            && t.sent.toFar == s.sent.toFar + (if s.sock.destroyed || s.ident.peer.External? || !e.agentOpen then [] else [TcpClose])
            && t.sock.buffered == s.sock.buffered && t.sock.paused == s.sock.paused
  {
    hide ClientTalk, FarTalk, DataOf, TalkStep, FarStep;
    assert s.sent.toFar + [] == s.sent.toFar;
  }

  /** The endings that come from the far side, once its socket counts as destroyed. */
  lemma FarEndsTold(s: Stream, e: Env)
    requires !s.cleaned && s.sock.destroyed
    ensures var t := OnClose(s, e);
            && t.cleaned && t.ident == s.ident && t.sent.toFar == s.sent.toFar
            && t.sent.toClient == s.sent.toClient + (if e.wsOpen then [TcpClose] else [])
            && t.sock.buffered == s.sock.buffered && t.sock.paused == s.sock.paused
    ensures var t := OnError(s, e);
            && t.cleaned && t.ident == s.ident && t.sent.toFar == s.sent.toFar
            && t.sent.toClient == s.sent.toClient + (if e.wsOpen then [TcpAbort] else [])
            && t.sock.buffered == s.sock.buffered && t.sock.paused == s.sock.paused
  {
    hide ClientTalk, FarTalk, DataOf, TalkStep, FarStep;
    assert s.sent.toClient + [] == s.sent.toClient;
  }

  lemma BackpressureTold(s: Stream, e: Env)
    ensures var t := SyncBackpressure(s, e);
            && t.cleaned == s.cleaned && t.sock == s.sock && t.ident == s.ident && t.sent.toFar == s.sent.toFar
            && t.flow == s.flow.(clientPausedForAgent := Busy(s))
            && t.sent.toClient == s.sent.toClient + if e.wsOpen then Change(s.flow.clientPausedForAgent, Busy(s)) else []
  {
    hide ClientTalk, FarTalk, DataOf, TalkStep, FarStep;
    assert s.sent.toClient + [] == s.sent.toClient;
  }

  /** Chunks have gone on to an OPEN client; if it was too slow for one of them, the socket is paused. */
  predicate Emits(s: Stream, t: Stream, e: Env, chunks: seq<Chunk>, high: bool) {
    && !t.cleaned && t.abortSent == s.abortSent && t.ident == s.ident
    && t.sock == s.sock.(paused := s.sock.paused || high)
    && t.flow == s.flow.(localPausedForWs := s.sock.paused || high, pendingSends := s.flow.pendingSends + |chunks|)
    && t.sent.toClient == s.sent.toClient + DataFrames(chunks)
    && t.sent.toFar == s.sent.toFar + (if high && !s.sock.paused && s.ident.peer.Agent? && e.agentOpen then [Pause] else [])
  }

  predicate Emitting(s: Stream, e: Env) {
    !s.cleaned && !s.sock.destroyed && e.wsOpen && s.sock.paused == s.flow.localPausedForWs
  }

  lemma OnDataEmits(s: Stream, e: Env, c: Chunk, high: bool)
    requires Emitting(s, e)
    ensures Emits(s, OnData(s, e, c, high), e, [c], high)
  {
    hide ClientTalk, FarTalk, DataOf, TalkStep, FarStep, Abort, SameInputs;
    assert DataFrames([c]) == [TcpData(c)];
    assert s.sent.toFar + [] == s.sent.toFar;
    if high && !s.flow.localPausedForWs {
    } else {
    }
  }

  lemma NothingEmitted(s: Stream, e: Env)
    requires Emitting(s, e)
    ensures Emits(s, s, e, [], false)
  {
    assert s.sent.toClient + DataFrames([]) == s.sent.toClient && s.sent.toFar + [] == s.sent.toFar;
  }

  lemma EmitsTwice(s: Stream, t: Stream, u: Stream, e: Env, c: Chunk, chunks: seq<Chunk>, high: bool, high': bool)
    requires Emitting(s, e) && Emits(s, t, e, [c], high) && Emits(t, u, e, chunks, high')
    ensures Emits(s, u, e, [c] + chunks, high || high')
  {
    assert DataFrames([c] + chunks) == DataFrames([c]) + DataFrames(chunks);
  }

  lemma EmitsGoesOn(s: Stream, t: Stream, e: Env, chunks: seq<Chunk>, high: bool)
    requires Emitting(s, e) && Emits(s, t, e, chunks, high)
    ensures Emitting(t, e)
  {
  }

  lemma {:induction false} EmitAllEmits(s: Stream, e: Env, chunks: seq<Chunk>, highs: seq<bool>)
    requires Emitting(s, e)
    ensures Emits(s, EmitAll(s, e, chunks, highs), e, chunks, RC.SomeHigh(highs, |chunks|))
    decreases |chunks|
  {
    hide ClientTalk, FarTalk, DataOf, OnData, RC.SomeHigh, SameInputs, Emits, Emitting, DataFrames;
    if |chunks| == 0 {
      RC.NoneHigh(highs);
      NothingEmitted(s, e);
    } else {
      var t, rest := OnData(s, e, chunks[0], High(highs, 0)), if |highs| == 0 then [] else highs[1..];
      OnDataEmits(s, e, chunks[0], High(highs, 0));
      EmitsGoesOn(s, t, e, [chunks[0]], High(highs, 0));
      EmitAllEmits(t, e, chunks[1..], rest);
      RC.HighShift(highs, |chunks|);
      EmitsTwice(s, t, EmitAll(t, e, chunks[1..], rest), e, chunks[0], chunks[1..], High(highs, 0), RC.SomeHigh(rest, |chunks| - 1));
      assert chunks == [chunks[0]] + chunks[1..];
    }
  }

  /** Reading goes on: what was held back goes to the client, and the agent is told RESUME last. */
  ghost predicate Resumed(s: Stream, t: Stream, e: Env) {
    var fails, high := !e.wsOpen && s.sock.buffered != [], e.wsOpen && RC.SomeHigh(e.highs, |s.sock.buffered|);
    && (t.cleaned <==> fails) && t.ident == s.ident && t.sock.buffered == []
    && t.sent.toClient == s.sent.toClient + (if e.wsOpen then DataFrames(s.sock.buffered) else [])
    && t.sent.toFar == s.sent.toFar
                       + (if s.ident.peer.External? || !e.agentOpen then []
                          else (if fails then [TcpAbort] else if high then [Pause] else []) + [Resume])
    && (!fails ==>
          && t.sock == s.sock.(paused := high, buffered := [], bufferedBytes := 0)
          && t.flow == s.flow.(localPausedForWs := high, pendingSends := s.flow.pendingSends + if e.wsOpen then |s.sock.buffered| else 0))
  }

  lemma AgentTold(s: Stream, e: Env, f: Frame)
    ensures var t := ToAgent(s, e, f);
            && t.cleaned == s.cleaned && t.ident == s.ident && t.flow == s.flow && t.sock == s.sock && t.sent.toClient == s.sent.toClient
            && t.sent.toFar == s.sent.toFar + if s.ident.peer.Agent? && e.agentOpen then [f] else []
  {
    hide ClientTalk, FarTalk, DataOf, TalkStep, FarStep;
    assert s.sent.toFar + [] == s.sent.toFar;
  }

  lemma Joined(a: seq<Frame>, b: seq<Frame>, c: seq<Frame>)
    ensures a + b + c == a + (b + c)
  {
  }

  function Unblocked(s: Stream): Stream {
    s.(sock := s.sock.(paused := false, buffered := [], bufferedBytes := 0))
  }

  lemma ResumeOpen(s: Stream, e: Env)
    requires Ready(s) && !s.sock.destroyed && s.sock.paused && !s.flow.localPausedForWs && e.wsOpen
    ensures Resumed(s, ToAgent(EmitAll(Unblocked(s), e, s.sock.buffered, e.highs), e, Resume), e)
  {
    hide Ready, EmitAll, ToAgent, SameInputs, RC.SomeHigh, DataFrames;
    var t := EmitAll(Unblocked(s), e, s.sock.buffered, e.highs);
    assert !s.cleaned by { LiveReady(s); }
    EmitAllEmits(Unblocked(s), e, s.sock.buffered, e.highs);
    AgentTold(t, e, Resume);
    Joined(s.sent.toFar, [], [Resume]);
    Joined(s.sent.toFar, [], []);
    Joined(s.sent.toFar, [Pause], [Resume]);
  }

  lemma LiveReady(s: Stream)
    requires Ready(s)
    ensures !s.cleaned && Ready(Unblocked(s))
  {
  }

  lemma ResumeClosed(s: Stream, e: Env)
    requires Ready(s) && !s.sock.destroyed && s.sock.paused && !s.flow.localPausedForWs && !e.wsOpen
    ensures Resumed(s, ToAgent(EmitAll(Unblocked(s), e, s.sock.buffered, e.highs), e, Resume), e)
  {
    hide Ready, EmitAll, ToAgent, SameInputs, RC.SomeHigh, DataFrames;
    var s1 := Unblocked(s);
    LiveReady(s);
    AgentTold(EmitAll(s1, e, s.sock.buffered, e.highs), e, Resume);
    if s.sock.buffered == [] {
      RC.EmitNothing(s1, e, e.highs);
    } else {
      hide Abort;
      EmitFails(s1, e, s.sock.buffered, e.highs);
      AbortTold(s1, e, true);
    }
    assert s.sent.toClient + [] == s.sent.toClient;
    Joined(s.sent.toFar, [], [Resume]);
    Joined(s.sent.toFar, [], []);
    Joined(s.sent.toFar, [TcpAbort], [Resume]);
  }

  lemma ResumeTold(s: Stream, e: Env)
    requires Ready(s) && !s.sock.destroyed && s.sock.paused && !s.flow.localPausedForWs
    ensures Resumed(s, ResumeSocket(s, e), e)
  {
    hide Ready, EmitAll, ToAgent, Resumed;
    if e.wsOpen { ResumeOpen(s, e); } else { ResumeClosed(s, e); }
  }

  lemma EmitFails(s: Stream, e: Env, chunks: seq<Chunk>, highs: seq<bool>)
    requires !s.cleaned && !e.wsOpen && chunks != []
    ensures EmitAll(s, e, chunks, highs) == Abort(s, e, true)
  {
    hide ClientTalk, FarTalk, DataOf, Abort, SameInputs;
    SE.AbortDone(s, e, true);
    RC.EmitAllGone(Abort(s, e, true), e, chunks[1..], if |highs| == 0 then [] else highs[1..]);
  }

  lemma PauseTold(s: Stream, e: Env)
    ensures var t := PauseSocket(s, e);
            && t.cleaned == s.cleaned && t.ident == s.ident && t.flow == s.flow && t.sock == s.sock.(paused := true)
            && t.sent.toClient == s.sent.toClient
            && t.sent.toFar == s.sent.toFar + if !s.sock.paused && s.ident.peer.Agent? && e.agentOpen then [Pause] else []
  {
    hide ClientTalk, FarTalk, DataOf, TalkStep, FarStep;
    assert s.sent.toFar + [] == s.sent.toFar;
  }

  // ---------------------------------------------------------------------------
  // Every input
  // ---------------------------------------------------------------------------

  /** A registered stream in good order, and what an input makes of it. */
  ghost predicate Good(s: Stream) {
    Ready(s) && FlowExact(s) && ReadExact(s)
  }

  ghost predicate Does(s: Stream, t: Stream, e: Env, i: Input) {
    Answers(s, t, e, i) && (!t.cleaned ==> FlagsMove(s, t, e, i))
  }

  lemma Units()
    ensures forall x: seq<Frame> :: [] + x == x && x + [] == x
    ensures DataFrames([]) == []
  {
  }

  lemma OneHigh(highs: seq<bool>)
    ensures RC.SomeHigh(highs, 1) <==> High(highs, 0)
    ensures !RC.SomeHigh(highs, 0)
  {
  }

  /** An input that ends the stream, and forwards nothing. */
  lemma EndedDoes(s: Stream, t: Stream, e: Env, i: Input)
    requires t.cleaned && Ends(s, e, i) && Forwards(s, e, i) == [] && !i.OfAgent? && !Reopens(s, e, i) && Writes(s, i) == []
    requires t.sock.buffered == s.sock.buffered && t.sock.paused == s.sock.paused
    requires t.sent.toClient == s.sent.toClient + (if e.wsOpen then Farewell(s, i) else [])
    requires t.sent.toFar == s.sent.toFar + (if s.ident.peer.External? || !e.agentOpen then [] else Reply(s, i) + FarFarewell(s, e, i))
    ensures Does(s, t, e, i)
  {
    hide FlagsMove;
    Units();
  }

  /** The client's frames that end a stream. */
  lemma ClientEnds(s: Stream, e: Env, f: Frame)
    requires Good(s) && ByClient(OfClient(f)) && !f.TcpAbort?
    ensures Does(s, FromClient(s, e, f), e, OfClient(f))
  {
    hide ClientTalk, FarTalk, DataOf, TalkStep, FarStep, Abort, Cleanup, SameInputs, Does;
    Units();
    if f.TcpClose? {
      CleanupTold(s.(took := s.took.(clientEnded := true)), e);
    } else if f.ResMeta? {
      AbortTold(s.(took := s.took.(crossed := true)), e, false);
    }
    EndedDoes(s, FromClient(s, e, f), e, OfClient(f));
  }

  lemma ClientAborts(s: Stream, e: Env)
    requires Good(s)
    ensures Does(s, FromClient(s, e, TcpAbort), e, OfClient(TcpAbort))
  {
    hide ClientTalk, FarTalk, DataOf, TalkStep, FarStep, Abort, Cleanup, ToAgent, Does;
    var t := s.(took := s.took.(clientEnded := true));
    var u := t.(awaitingClientAck := false);
    var rejected := ConnectRejected(ReplyTo(s.ident));
    Units();
    AgentTold(u, e, rejected);
    AbortTold(t, e, false);
    assert Ready(ToAgent(u, e, rejected)) by { ToAgentReady(u, e, rejected); }
    AbortTold(ToAgent(u, e, rejected), e, false);
    Joined(s.sent.toFar, [rejected], [TcpAbort]);
    EndedDoes(s, FromClient(s, e, TcpAbort), e, OfClient(TcpAbort));
  }

  lemma ToAgentReady(s: Stream, e: Env, f: Frame)
    requires Ready(s)
    ensures Ready(ToAgent(s, e, f))
  {
    hide ClientTalk, FarTalk, DataOf, TalkStep, FarStep;
  }

  lemma ClientPauses(s: Stream, e: Env)
    requires Good(s)
    ensures Does(s, FromClient(s, e, Pause), e, OfClient(Pause))
  {
    hide ClientTalk, FarTalk, DataOf, PauseSocket, RC.SomeHigh;
    OneHigh(e.highs);
    Units();
    PauseTold(s.(flow := s.flow.(peerPausedRead := true)), e);
  }

  lemma NotPaused(s: Stream, e: Env)
    requires !s.sock.paused
    ensures ResumeSocket(s, e) == s
  {
    hide ClientTalk, FarTalk, DataOf, EmitAll;
  }

  lemma ClientResumes(s: Stream, e: Env)
    requires Good(s)
    ensures Does(s, FromClient(s, e, Resume), e, OfClient(Resume))
  {
    hide ClientTalk, FarTalk, DataOf, PauseSocket, ResumeSocket, RC.SomeHigh, Does;
    var s1 := s.(flow := s.flow.(peerPausedRead := false));
    var i := OfClient(Resume);
    OneHigh(e.highs);
    if s.sock.destroyed {
      StaysDoes(s, s1, e, i);
    } else if s.flow.localPausedForWs {
      assert PauseSocket(s1, e) == s1 by { AlreadyPaused(s1, e); }
      StaysDoes(s, s1, e, i);
    } else if s.sock.paused {
      ResumeTold(s1, e);
      ResumedDoes(s, s1, ResumeSocket(s1, e), e, i);
    } else {
      NotPaused(s1, e);
      StaysDoes(s, s1, e, i);
    }
  }

  lemma AlreadyPaused(s: Stream, e: Env)
    requires s.sock.paused
    ensures PauseSocket(s, e) == s
  {
    hide ClientTalk, FarTalk, DataOf;
  }

  /** A step that changes nothing but the client's wish, or the count of sends. */
  lemma StaysDoes(s: Stream, t: Stream, e: Env, i: Input)
    requires Good(s) && t == s.(flow := t.flow) && FlagsMove(s, t, e, i) && Busy(s) == Busy(t)
    requires Forwards(s, e, i) == [] && !Reopens(s, e, i) && !Ends(s, e, i) && !i.OfAgent? && Writes(s, i) == [] && Reply(s, i) == []
    requires !(i.OfClient? && (i.f.TcpClose? || i.f.TcpAbort? || i.f.ResMeta?))
    ensures Does(s, t, e, i)
  {
    hide Good, FlagsMove;
    LiveGood(s);
    Units();
  }

  lemma LiveGood(s: Stream)
    requires Good(s)
    ensures !s.cleaned
  {
  }

  /** A step that reopens the socket. */
  lemma ResumedDoes(s: Stream, s1: Stream, t: Stream, e: Env, i: Input)
    requires Good(s) && Reopens(s, e, i) && s1 == s.(flow := s1.flow) && Resumed(s1, t, e) && t.awaitingClientAck == s.awaitingClientAck
    requires s1.flow == s.flow.(peerPausedRead := false, localPausedForWs := false, pendingSends := s1.flow.pendingSends)
    requires s1.flow.pendingSends == s.flow.pendingSends - if i.Happens? && i.ev.SendDone? then 1 else 0
    ensures Does(s, t, e, i)
  {
    hide RC.SomeHigh, DataFrames;
    Units();
  }

  lemma ClientConfirms(s: Stream, e: Env, f: Frame)
    requires Good(s) && !ByClient(OfClient(f)) && !f.Pause? && !f.Resume? && !f.TcpData?
    ensures Does(s, FromClient(s, e, f), e, OfClient(f))
  {
    hide ClientTalk, FarTalk, DataOf, Abort, Cleanup, SyncReadState, WriteFar, RC.SomeHigh, ToAgent;
    OneHigh(e.highs);
    Units();
    AgentTold(s.(awaitingClientAck := false), e, TcpConnectAck(ReplyTo(s.ident)));
  }

  /** The client's payload. */
  lemma WriteTold(s: Stream, e: Env, c: Chunk)
    requires Ready(s) && !s.sock.destroyed
    ensures var (t, ok) := WriteFar(s, e, c); var i := OfClient(TcpData(c));
            && t.cleaned == s.cleaned && t.flow == s.flow && t.sent.toClient == s.sent.toClient
            && t.sock == s.sock.(pendingDrain := s.sock.pendingDrain || (s.ident.peer.Agent? && e.agentOpen && e.full))
            && t.sent.toFar == s.sent.toFar + (if s.ident.peer.External? || e.agentOpen then [TcpData(c)] else [])
            && (ok <==> !Refused(s, e, i))
  {
    hide ClientTalk, FarTalk, DataOf;
    assert s.sent.toFar + [] == s.sent.toFar;
  }

  lemma ClientPays(s: Stream, e: Env, c: Chunk)
    requires Good(s)
    ensures Does(s, FromClient(s, e, TcpData(c)), e, OfClient(TcpData(c)))
  {
    hide ClientTalk, FarTalk, DataOf, WriteFar, SyncBackpressure, RC.SomeHigh, Answers, FlagsMove;
    var i, t := OfClient(TcpData(c)), FromClient(s, e, TcpData(c));
    if s.sock.destroyed {
      assert Answers(s, s, e, i) && FlagsMove(s, s, e, i) by { DeafStays(s, e, i); }
    } else {
      var s1 := s.(took := s.took.(received := s.took.received + [c]));
      WriteTold(s1, e, c);
      var w := WriteFar(s1, e, c).0;
      BackpressureTold(w.(flow := w.flow.(wsBackpressured := true)), e);
      PaidDoes(s, t, e, c);
    }
  }

  lemma DeafStays(s: Stream, e: Env, i: Input)
    requires Good(s) && s.sock.destroyed && i.OfClient? && i.f.TcpData?
    ensures Answers(s, s, e, i) && FlagsMove(s, s, e, i)
  {
    OneHigh(e.highs);
    Units();
  }

  lemma PaidDoes(s: Stream, t: Stream, e: Env, c: Chunk)
    requires Good(s) && !s.sock.destroyed
    requires var refused := Refused(s, e, OfClient(TcpData(c)));
             && !t.cleaned && t.awaitingClientAck == s.awaitingClientAck
             && t.flow == s.flow.(wsBackpressured := s.flow.wsBackpressured || refused, clientPausedForAgent := s.flow.clientPausedForAgent || refused)
             && t.sock == s.sock.(pendingDrain := s.sock.pendingDrain || (s.ident.peer.Agent? && e.agentOpen && e.full))
             && t.sent.toClient == s.sent.toClient + (if e.wsOpen && refused && !s.flow.clientPausedForAgent then [Pause] else [])
             && t.sent.toFar == s.sent.toFar + (if s.ident.peer.External? || e.agentOpen then [TcpData(c)] else [])
    ensures Does(s, t, e, OfClient(TcpData(c)))
  {
    OneHigh(e.highs);
    Units();
  }

  lemma ClientDoes(s: Stream, e: Env, f: Frame)
    requires Good(s)
    ensures Does(s, FromClient(s, e, f), e, OfClient(f))
  {
    hide Good, FromClient, Answers, FlagsMove;
    match f
    case Pause => ClientPauses(s, e);
    case Resume => ClientResumes(s, e);
    case TcpData(c) => ClientPays(s, e, c);
    case _ =>
      if f.TcpAbort? { ClientAborts(s, e); } else if ByClient(OfClient(f)) { ClientEnds(s, e, f); } else { ClientConfirms(s, e, f); }
  }

  // The agent's frames.

  lemma AgentEnds(s: Stream, e: Env, f: Frame)
    requires Good(s) && Terminal(f) && Heard(s, OfAgent(f)) && s.ident.peer.Agent?
    ensures Does(s, FromAgent(s, e, f), e, OfAgent(f))
  {
    hide ClientTalk, FarTalk, DataOf, TalkStep, FarStep, OnClose, OnError, FlagsMove, PushInbound;
    Units();
    FarEndsTold(s.(sock := s.sock.(destroyed := true, agentNotified := true), took := s.took.(farEnded := true)), e);
  }

  /** A step that only changes the bookkeeping, and tells the client what has changed. */
  lemma BalanceDoes(s: Stream, t: Stream, e: Env, i: Input)
    requires Good(s) && FlagsMove(s, t, e, i) && Forwards(s, e, i) == [] && !Reopens(s, e, i) && !Ends(s, e, i)
    requires Writes(s, i) == [] && Reply(s, i) == [] && FarFarewell(s, e, i) == [] && HeldBack(s, e, i) == s.sock.buffered && !Overflows(s, e, i)
    requires !t.cleaned && t.sock == s.sock.(pendingDrain := t.sock.pendingDrain) && t.sent.toFar == s.sent.toFar
    requires t.sent.toClient == s.sent.toClient + if e.wsOpen then Change(Busy(s), Busy(t)) else []
    ensures Does(s, t, e, i)
  {
    hide Good, FlagsMove;
    LiveGood(s);
    Units();
  }

  /** One of the reasons not to write to the far side changes. */
  lemma ReasonDoes(s: Stream, t: Stream, e: Env, i: Input)
    requires Good(s) && !t.cleaned && t.awaitingClientAck == s.awaitingClientAck && t.sent.toFar == s.sent.toFar
    requires t.sock == s.sock.(pendingDrain := s.sock.pendingDrain && !(i.Happens? && i.ev.FarSendDone?))
    requires t.flow == s.flow.(agentPaused := t.flow.agentPaused, wsBackpressured := t.flow.wsBackpressured, clientPausedForAgent := Busy(t))
    requires t.sent.toClient == s.sent.toClient + if e.wsOpen then Change(s.flow.clientPausedForAgent, Busy(t)) else []
    requires || (i.OfAgent? && Counts(s, i) && (i.f.Pause? || i.f.Resume?) && t.flow.agentPaused == i.f.Pause?
                 && t.flow.wsBackpressured == s.flow.wsBackpressured)
             || (Drains(s, e, i) && t.flow.agentPaused == s.flow.agentPaused && !t.flow.wsBackpressured)
    ensures Does(s, t, e, i)
  {
    hide RC.SomeHigh, Does;
    OneHigh(e.highs);
    BalanceDoes(s, t, e, i);
  }

  lemma AgentAsks(s: Stream, e: Env, pause: bool)
    requires Good(s) && s.ident.peer.Agent?
    ensures var f := if pause then Pause else Resume; Does(s, FromAgent(s, e, f), e, OfAgent(f))
  {
    hide ClientTalk, FarTalk, DataOf, SyncBackpressure, Does;
    var f := if pause then Pause else Resume;
    BackpressureTold(s.(flow := s.flow.(agentPaused := pause)), e);
    if s.awaitingClientAck {
      Unheard(s, e, OfAgent(f));
    } else {
      ReasonDoes(s, FromAgent(s, e, f), e, OfAgent(f));
    }
  }

  /** An input that changes nothing. */
  lemma Unheard(s: Stream, e: Env, i: Input)
    requires Good(s) && FlagsMove(s, s, e, i) && Forwards(s, e, i) == [] && !Reopens(s, e, i) && !Ends(s, e, i)
    requires Writes(s, i) == [] && Reply(s, i) == [] && FarFarewell(s, e, i) == [] && HeldBack(s, e, i) == s.sock.buffered && !Overflows(s, e, i)
    ensures Does(s, s, e, i)
  {
    hide Good, FlagsMove;
    LiveGood(s);
    Units();
  }

  lemma AgentIgnored(s: Stream, e: Env, f: Frame)
    requires Good(s) && s.ident.peer.Agent? && !f.TcpData? && !f.Pause? && !f.Resume? && !(Terminal(f) && Heard(s, OfAgent(f)))
    ensures Does(s, FromAgent(s, e, f), e, OfAgent(f))
  {
    hide ClientTalk, FarTalk, DataOf, OnClose, OnError, PushInbound, RC.SomeHigh, Does;
    OneHigh(e.highs);
    assert s.sent.toClient + [] == s.sent.toClient;
    BalanceDoes(s, s, e, OfAgent(f));
  }

  lemma AgentPays(s: Stream, e: Env, c: Chunk)
    requires Good(s) && s.ident.peer.Agent?
    ensures Does(s, FromAgent(s, e, TcpData(c)), e, OfAgent(TcpData(c)))
  {
    hide ClientTalk, FarTalk, DataOf, OnData, AbortSocket, RC.SomeHigh, Does;
    var i := OfAgent(TcpData(c));
    var s1 := s.(took := s.took.(accepted := s.took.accepted + [c]));
    if !Heard(s, i) {
      AgentSteersData(s, e, c);
    } else if s.sock.paused {
      BuffersDoes(s, s1, e, c);
    } else if e.wsOpen {
      OneHigh(e.highs);
      OnDataEmits(s1, e, c, High(e.highs, 0));
      EmitsDoes(s, s1, OnData(s1, e, c, High(e.highs, 0)), e, i, c);
    } else {
      assert OnData(s1, e, c, High(e.highs, 0)) == Abort(s1, e, true) by { ClosedAborts(s1, e, c); }
      AbortTold(s1, e, true);
      FailsDoes(s, s1, e, i, c);
    }
  }

  lemma AgentSteersData(s: Stream, e: Env, c: Chunk)
    requires Good(s) && s.ident.peer.Agent? && !Heard(s, OfAgent(TcpData(c)))
    ensures Does(s, FromAgent(s, e, TcpData(c)), e, OfAgent(TcpData(c)))
  {
    hide ClientTalk, FarTalk, DataOf, OnData, AbortSocket, RC.SomeHigh;
    OneHigh(e.highs);
    Units();
  }

  lemma ClosedAborts(s: Stream, e: Env, c: Chunk)
    requires !s.cleaned && !e.wsOpen
    ensures OnData(s, e, c, High(e.highs, 0)) == Abort(s, e, true)
  {
    hide ClientTalk, FarTalk, DataOf, Abort;
  }

  /** A chunk goes on to the client. */
  lemma EmitsDoes(s: Stream, s1: Stream, t: Stream, e: Env, i: Input, c: Chunk)
    requires Good(s) && !s.sock.destroyed && !s.sock.paused && e.wsOpen && s1 == s.(took := s1.took)
    requires (i == OfAgent(TcpData(c)) && Heard(s, i)) || i == Happens(ExternalData(c))
    requires Emits(s1, t, e, [c], High(e.highs, 0)) && t.awaitingClientAck == s.awaitingClientAck
    ensures Does(s, t, e, i)
  {
    hide DataFrames, RC.SomeHigh;
    OneHigh(e.highs);
    Units();
  }

  /** A chunk for a client that is gone. */
  lemma FailsDoes(s: Stream, s1: Stream, e: Env, i: Input, c: Chunk)
    requires Good(s) && !s.sock.destroyed && !s.sock.paused && !e.wsOpen && s1 == s.(took := s1.took)
    requires (i == OfAgent(TcpData(c)) && Heard(s, i)) || i == Happens(ExternalData(c))
    ensures Does(s, Abort(s1, e, true), e, i)
  {
    hide ClientTalk, FarTalk, DataOf, Abort, FlagsMove, DataFrames;
    AbortTold(s1, e, true);
    Units();
  }

  /** A chunk is held back, or overflows the buffer. */
  lemma BuffersDoes(s: Stream, s1: Stream, e: Env, c: Chunk)
    requires Good(s) && s.ident.peer.Agent? && Heard(s, OfAgent(TcpData(c))) && s.sock.paused
    requires s1 == s.(took := s.took.(accepted := s.took.accepted + [c]))
    ensures Does(s, PushInbound(s, e, c), e, OfAgent(TcpData(c)))
  {
    hide ClientTalk, FarTalk, DataOf, OnData, RC.SomeHigh;
    OneHigh(e.highs);
    Units();
  }

  lemma AgentDoes(s: Stream, e: Env, f: Frame)
    requires Good(s) && s.ident.peer.Agent?
    ensures Does(s, FromAgent(s, e, f), e, OfAgent(f))
  {
    hide Good, FromAgent, Does;
    match f
    case TcpData(c) => AgentPays(s, e, c);
    case Pause => AgentAsks(s, e, true);
    case Resume => AgentAsks(s, e, false);
    case _ => if Terminal(f) && Heard(s, OfAgent(f)) { AgentEnds(s, e, f); } else { AgentIgnored(s, e, f); }
  }

  // Everything else.

  lemma FarSideEnds(s: Stream, e: Env, ev: Local)
    requires Good(s) && Possible(s, e, ev) && (ev.QueuedClose? || ev.ExternalClose? || ev.ExternalError?)
    requires ev.QueuedClose? ==> s.sock.destroyed
    ensures Does(s, OnLocal(s, e, ev), e, Happens(ev))
  {
    hide ClientTalk, FarTalk, DataOf, TalkStep, FarStep, OnClose, OnError, FlagsMove;
    Units();
    if ev.QueuedClose? { FarEndsTold(s.(sock := s.sock.(closeQueued := false)), e); }
    FarEndsTold(s.(sock := s.sock.(destroyed := true), took := s.took.(farEnded := true)), e);
  }

  lemma RelayEnds(s: Stream, e: Env, ev: Local)
    requires Good(s) && Possible(s, e, ev) && (ev.IdleTimeout? || ev.ClientGone? || ev.AgentGone?)
    ensures Does(s, OnLocal(s, e, ev), e, Happens(ev))
  {
    hide ClientTalk, FarTalk, DataOf, TalkStep, FarStep, Abort, Does;
    Units();
    AbortTold(s, e, true);
    AbortTold(s, e, false);
    EndedDoes(s, OnLocal(s, e, ev), e, Happens(ev));
  }

  lemma ExternalPays(s: Stream, e: Env, c: Chunk)
    requires Good(s) && Possible(s, e, ExternalData(c))
    ensures Does(s, OnLocal(s, e, ExternalData(c)), e, Happens(ExternalData(c)))
  {
    hide ClientTalk, FarTalk, DataOf, OnData, RC.SomeHigh, Does;
    var i, s1 := Happens(ExternalData(c)), s.(took := s.took.(accepted := s.took.accepted + [c]));
    if e.wsOpen {
      OnDataEmits(s1, e, c, High(e.highs, 0));
      EmitsDoes(s, s1, OnData(s1, e, c, High(e.highs, 0)), e, i, c);
    } else {
      ClosedAborts(s1, e, c);
      FailsDoes(s, s1, e, i, c);
    }
  }

  lemma FarDrains(s: Stream, e: Env, ev: Local)
    requires Good(s) && Possible(s, e, ev) && (ev.ExternalDrain? || ev.FarSendDone?)
    ensures Does(s, OnLocal(s, e, ev), e, Happens(ev))
  {
    hide ClientTalk, FarTalk, DataOf, OnDrain, RC.SomeHigh, Does, Good;
    if Drains(s, e, Happens(ev)) {
      DrainedDoes(s, if ev.FarSendDone? then s.(sock := s.sock.(pendingDrain := false)) else s, e, Happens(ev));
    } else {
      OneHigh(e.highs);
      Unheard(s, e, Happens(ev));
    }
  }

  lemma DrainedDoes(s: Stream, s1: Stream, e: Env, i: Input)
    requires Good(s) && Drains(s, e, i) && s1 == s.(sock := s.sock.(pendingDrain := s.sock.pendingDrain && !i.ev.FarSendDone?))
    ensures Does(s, OnDrain(s1, e), e, i)
  {
    hide ClientTalk, FarTalk, DataOf, SyncBackpressure, Does;
    BackpressureTold(s1.(flow := s1.flow.(wsBackpressured := false)), e);
    assert s.sent.toClient + [] == s.sent.toClient;
    ReasonDoes(s, OnDrain(s1, e), e, i);
  }

  lemma SendCompletes(s: Stream, e: Env)
    requires Good(s) && Possible(s, e, SendDone)
    ensures Does(s, OnLocal(s, e, SendDone), e, Happens(SendDone))
  {
    hide ClientTalk, FarTalk, DataOf, PauseSocket, ResumeSocket, RC.SomeHigh, Does;
    var i := Happens(SendDone);
    var d := s.(flow := s.flow.(pendingSends := Less(s.flow.pendingSends)));
    var s1 := d.(flow := d.flow.(localPausedForWs := false));
    OneHigh(e.highs);
    if !CatchesUp(s, e, i) {
      StaysDoes(s, d, e, i);
    } else if s.sock.destroyed {
      StaysDoes(s, s1, e, i);
    } else if s.flow.peerPausedRead {
      AlreadyPaused(s1, e);
      StaysDoes(s, s1, e, i);
    } else {
      ResumeTold(s1, e);
      ResumedDoes(s, s1, ResumeSocket(s1, e), e, i);
    }
  }

  lemma LocalDoes(s: Stream, e: Env, ev: Local)
    requires Good(s) && Possible(s, e, ev) && (ev.QueuedClose? ==> s.sock.destroyed)
    ensures Does(s, OnLocal(s, e, ev), e, Happens(ev))
  {
    hide Good, OnLocal, Does, Possible;
    match ev
    case SendDone => SendCompletes(s, e);
    case FarSendDone => FarDrains(s, e, ev);
    case ExternalDrain => FarDrains(s, e, ev);
    case ExternalData(c) => ExternalPays(s, e, c);
    case QueuedClose => FarSideEnds(s, e, ev);
    case ExternalClose => FarSideEnds(s, e, ev);
    case ExternalError => FarSideEnds(s, e, ev);
    case _ => RelayEnds(s, e, ev);
  }

  /**
   * For every registered stream and every input: it ends exactly for the reasons above; the client and the far
   * side are told exactly what is due, pauses and farewells included; exactly the right chunks are held back; and
   * each reason to pause comes and goes with its own input.
   */
  lemma AnswersExactly(s: Stream, e: Env, i: Input)
    requires Inv(s, e) && Arrives(s, e, i)
    ensures Does(s, Next(s, e, i), e, i)
  {
    hide Inv, Good, FromClient, FromAgent, OnLocal, Does, Possible;
    LiveIsReady(s, e);
    assert Good(s) && (s.sock.closeQueued ==> s.sock.destroyed) by { LiveIsGood(s, e); }
    match i
    case OfClient(f) => ClientDoes(s, e, f);
    case OfAgent(f) => AgentDoes(s, e, f);
    case Happens(ev) =>
      if ev.QueuedClose? { QueuedOnly(s, e, ev); }
      LocalDoes(s, e, ev);
  }

  lemma QueuedOnly(s: Stream, e: Env, ev: Local)
    requires Possible(s, e, ev) && ev.QueuedClose?
    ensures s.sock.closeQueued
  {
  }

  lemma LiveIsGood(s: Stream, e: Env)
    requires Inv(s, e) && !s.cleaned
    ensures Good(s) && (s.sock.closeQueued ==> s.sock.destroyed)
  {
    hide ClientTalk, FarTalk, DataOf, TotalBytes;
    LiveIsReady(s, e);
  }
}
