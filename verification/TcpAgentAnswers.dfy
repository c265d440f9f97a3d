/**
 * What the local agent says and does about one bridged connection, input by input, and what its pauses mean over a
 * whole run: stated on the frames and socket events that came in and the frames that went out.
 */
module TcpAgentAnswers {
  import opened Frames
  import opened TcpAgent

  /** A frame of the relay, or an event of the local socket, a send callback or a timer. */
  datatype Input = FromRelay(f: Frame) | Happens(ev: Local)

  function Next(s: Stream, e: Env, i: Input): Stream {
    match i
    case FromRelay(f) => FromServer(s, e, f)
    case Happens(ev) => OnLocal(s, e, ev)
  }

  /** What can come in on an entry that is still in streamedSockets. */
  predicate Arrives(s: Stream, e: Env, i: Input) {
    !s.cleaned && (i.Happens? ==> Possible(s, i.ev) && (i.ev.Shutdown? ==> !e.wsOpen))
  }

  /** The entry ends: the relay ended it, or the local application did, or the WebSocket is closed. */
  predicate Ends(s: Stream, e: Env, i: Input) {
    match i
    case FromRelay(f) => Terminal(f)
    case Happens(ev) => ev.LocalClose? || ev.LocalError? || ev.Shutdown?
  }

  /** The one frame the relay is sent for an input: how the stream ended, the chunk read, or a change of the pause. */
  function Told(s: Stream, e: Env, i: Input): seq<Frame> {
    match i
    case FromRelay(f) => if f.TcpData? && e.full && !s.flow.localWriteBackpressured then [Pause] else []
    case Happens(ev) =>
      if ev.LocalClose? then [TcpClose]
      else if ev.LocalError? then [TcpAbort]
      else if ev.LocalData? then [TcpData(ev.chunk)]
      else if ev.LocalDrain? && s.flow.localWriteBackpressured then [Resume]
      else []
  }

  /** The chunk an input hands to the local application, and the one it takes from it. */
  function Written(i: Input): seq<Chunk> {
    if i.FromRelay? then Carried(i.f) else []
  }

  function Read(e: Env, i: Input): seq<Chunk> {
    if i.Happens? && i.ev.LocalData? && e.wsOpen then [i.ev.chunk] else []
  }

  /** What one input makes of an entry. */
  predicate Answers(s: Stream, t: Stream, e: Env, i: Input) {
    && (t.cleaned <==> Ends(s, e, i)) && (t.cleaned ==> t.sock.destroyed)
    && t.sent == s.sent + (if e.wsOpen then Told(s, e, i) else [])
    && t.took.written == s.took.written + Written(i) && t.took.read == s.took.read + Read(e, i)
    && (t.took.serverEnded <==> i.FromRelay? && Terminal(i.f))
  }

  /** An ordinary close of the local connection is told as TCP_CLOSE, a failure as TCP_ABORT, and nothing else ends it aloud. */
  lemma AnswersExactly(s: Stream, e: Env, i: Input)
    requires Inv(s, e.wsOpen) && Arrives(s, e, i)
    ensures Answers(s, Next(s, e, i), e, i)
  {
    hide Word, DataOf, WordStep;
    assert s.sent + [] == s.sent && s.took.written + [] == s.took.written && s.took.read + [] == s.took.read;
    match i
    case FromRelay(f) =>
      hide OnLocal;
      if f.TcpData? {
      } else {
      }
    case Happens(ev) =>
      hide FromServer;
      match ev
      case LocalData(_) =>
      case _ =>
  }

  // ---------------------------------------------------------------------------
  // Over a whole run
  // ---------------------------------------------------------------------------

  type Script = seq<(Env, Input)>

  /** The record after a script of inputs; None if one of them could not have come in. */
  function Run(id: nat, script: Script): Option<Stream> {
    if |script| == 0 then Some(Registered(id))
    else
      var n := |script| - 1;
      var s := Run(id, script[..n]);
      if s.Some? && Arrives(s.value, script[n].0, script[n].1) then Some(Next(s.value, script[n].0, script[n].1)) else None
  }

  function After(id: nat, script: Script): Stream {
    var s := Run(id, script);
    if s.Some? then s.value else Registered(id)
  }

  /** The WebSocket as the run leaves it; once it is no longer OPEN it stays so. */
  predicate OpenAfter(script: Script) {
    |script| > 0 ==> script[|script| - 1].0.wsOpen
  }

  predicate Closes(script: Script) {
    |script| > 0 ==>
      && (OpenAfter(script) ==> OpenAfter(script[..|script| - 1]))
      && Closes(script[..|script| - 1])
  }

  /** The last PAUSE or RESUME of the relay was a PAUSE. */
  predicate PauseHeard(script: Script) {
    |script| > 0
    && var i := script[|script| - 1].1;
       if i.FromRelay? && i.f.Pause? then true else if i.FromRelay? && i.f.Resume? then false else PauseHeard(script[..|script| - 1])
  }

  /** A write has filled the local socket, and it has not drained since. */
  predicate SocketFull(script: Script) {
    |script| > 0
    && var (e, i) := script[|script| - 1];
       if i.FromRelay? && i.f.TcpData? && e.full then true
       else if i.Happens? && i.ev.LocalDrain? && e.wsOpen then false
       else SocketFull(script[..|script| - 1])
  }

  /** A chunk is sent, or the callback of a send comes. */
  function Sends(e: Env, i: Input): int {
    if i.Happens? && i.ev.LocalData? && e.wsOpen then 1 else if i.Happens? && i.ev.SendDone? then -1 else 0
  }

  /** Sends of chunks whose callbacks have not come yet. */
  function Outstanding(script: Script): int {
    if |script| == 0 then 0
    else
      var (e, i) := script[|script| - 1];
      Outstanding(script[..|script| - 1]) + Sends(e, i)
  }

  /** A chunk has found the WebSocket's buffer high, and it has not been found low since with no send outstanding. */
  predicate RelayFull(script: Script) {
    |script| > 0
    && var (e, i) := script[|script| - 1];
       if i.Happens? && i.ev.LocalData? && e.wsOpen && e.high then true
       else if i.Happens? && (i.ev.SendDone? || i.ev.WsDrain?) && Outstanding(script) == 0 && e.low then false
       else RelayFull(script[..|script| - 1])
  }

  /** While the entry lives, its flags are what the script has made them. */
  ghost predicate KnowsHistory(s: Stream, script: Script) {
    !s.cleaned ==>
      && s.flow.peerPausedRead == PauseHeard(script) && s.flow.localWriteBackpressured == SocketFull(script)
      && s.flow.pausedForWs == RelayFull(script) && s.flow.pendingSends == Outstanding(script)
  }

  /** What one input makes of the flags of an entry that survives it. */
  ghost predicate FlagsMove(s: Stream, t: Stream, e: Env, i: Input) {
    && t.flow.peerPausedRead == (if i.FromRelay? && i.f.Pause? then true else if i.FromRelay? && i.f.Resume? then false else s.flow.peerPausedRead)
    && t.flow.localWriteBackpressured == (if i.FromRelay? && i.f.TcpData? && e.full then true
                                          else if i.Happens? && i.ev.LocalDrain? && e.wsOpen then false
                                          else s.flow.localWriteBackpressured)
    && t.flow.pendingSends == s.flow.pendingSends + Sends(e, i)
    && t.flow.pausedForWs == (if i.Happens? && i.ev.LocalData? && e.wsOpen && e.high then true
                              else if i.Happens? && (i.ev.SendDone? || i.ev.WsDrain?) && t.flow.pendingSends == 0 && e.low then false
                              else s.flow.pausedForWs)
  }

  lemma InputMoves(s: Stream, e: Env, i: Input)
    requires Arrives(s, e, i) && !s.sock.destroyed && !Next(s, e, i).cleaned
    ensures FlagsMove(s, Next(s, e, i), e, i)
  {
    hide Word, DataOf, WordStep;
    match i
    case FromRelay(f) =>
      hide OnLocal;
      if f.TcpData? {
      } else {
      }
    case Happens(ev) =>
      hide FromServer;
      match ev
      case LocalData(_) =>
      case SendDone =>
      case _ =>
  }

  lemma {:induction false} HistoryIsKnown(id: nat, script: Script)
    requires Run(id, script).Some? && Closes(script)
    ensures KnowsHistory(After(id, script), script) && Inv(After(id, script), OpenAfter(script))
  {
    hide Word, DataOf, FromServer, OnLocal, Possible, Inv;
    if |script| == 0 {
      RegisteredInv(id, true);
    } else {
      var n := |script| - 1;
      HistoryIsKnown(id, script[..n]);
      var s, e, i := After(id, script[..n]), script[n].0, script[n].1;
      InvCloses(s, OpenAfter(script[..n]), e.wsOpen);
      InputInv(s, e, i);
      LiveFlows(s, e.wsOpen);
      if !After(id, script).cleaned { InputMoves(s, e, i); }
    }
  }

  lemma InputInv(s: Stream, e: Env, i: Input)
    requires Inv(s, e.wsOpen) && Arrives(s, e, i)
    ensures Inv(Next(s, e, i), e.wsOpen)
  {
    hide Inv, FromServer, OnLocal, Possible;
    match i
    case FromRelay(f) => FromServerInv(s, e, f);
    case Happens(ev) => OnLocalInv(s, e, ev);
  }

  lemma LiveFlows(s: Stream, wsOpen: bool)
    requires Inv(s, wsOpen) && !s.cleaned
    ensures !s.sock.destroyed
  {
  }

  /**
   * In every run, while the entry lives and the WebSocket is OPEN: the local socket is paused for reading exactly
   * if the relay's last word on it was PAUSE or the WebSocket has been full since; and the relay has been sent
   * PAUSE last exactly if the local socket is full.
   */
  lemma PausesExactly(id: nat, script: Script)
    requires Run(id, script).Some? && Closes(script) && !After(id, script).cleaned && OpenAfter(script)
    ensures var s := After(id, script);
            && (s.sock.paused <==> PauseHeard(script) || RelayFull(script))
            && Word(s.sent) == Speaking(SocketFull(script))
  {
    hide Word, DataOf;
    HistoryIsKnown(id, script);
  }
}
