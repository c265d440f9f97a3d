/**
 * One proxied HTTP request inside the relay: the HTTP half of StreamManager, the callbacks of
 * HttpRouter._proxyHttpRequest, and what they do to the end user's response.
 */
module HttpStream {
  import opened Frames

  /** Successful calls on the response object, in order. */
  datatype Call = Head(status: int) | Body(chunk: Chunk) | End

  /**
   * What one step reads from its surroundings: is the WebSocket OPEN; would writeHead succeed with the
   * client's head, and with the relay's own error head; is the response buffer over
   * MAX_DEST_BUFFER_BYTES; does write throw; does write report that the response keeps up.
   */
  datatype HttpEnv = HttpEnv(wsOpen: bool, headOk: bool, errorHeadOk: bool, overfull: bool, writeThrows: bool, keepsUp: bool)

  /** The relay's view of the end user's response: its flags, and what has been called on it. */
  datatype Response = Response(started: bool, ended: bool, paused: bool, destroyed: bool, calls: seq<Call>)

  datatype Http = Http(id: nat, ws: nat, cleaned: bool, abortSent: bool, requestEnded: bool, res: Response, toClient: seq<Frame>)

  /** createStream, once REQ_META has been sent. */
  function Created(id: nat, ws: nat): Http {
    Http(id, ws, false, false, false, Response(false, false, false, false, []), [ReqMeta])
  }

  function Send(s: Http, e: HttpEnv, f: Frame): (r: Http)
    ensures ClientTalk(r.toClient) == if e.wsOpen then TalkStep(ClientTalk(s.toClient), f) else ClientTalk(s.toClient)
  {
    assert (s.toClient + [f])[..|s.toClient|] == s.toClient;
    if e.wsOpen then s.(toClient := s.toClient + [f]) else s
  }

  function Did(s: Http, c: Call): (r: Http)
    ensures ResponseProgress(r.res.calls) == ProgressStep(ResponseProgress(s.res.calls), c)
    ensures End in r.res.calls <==> End in s.res.calls || c == End
  {
    assert (s.res.calls + [c])[..|s.res.calls|] == s.res.calls;
    s.(res := s.res.(calls := s.res.calls + [c]))
  }

  /** res.writableEnded */
  predicate WritableEnded(s: Http) {
    End in s.res.calls
  }

  function Cleanup(s: Http): Http {
    if s.cleaned then s else s.(cleaned := true, res := s.res.(destroyed := s.res.destroyed || !WritableEnded(s)))
  }

  /** writeHead(502) then end(), inside one try. */
  function ErrorResponse(s: Http, e: HttpEnv): Http {
    if e.errorHeadOk then Did(Did(s, Head(502)), End) else s
  }

  function Abort(s: Http, e: HttpEnv, notify: bool): Http {
    if s.cleaned then s
    else
      var a := if notify && e.wsOpen && !s.abortSent then Send(s.(abortSent := true), e, ReqAbort) else s;
      var b := if !a.res.started then ErrorResponse(a, e)
               else if !a.res.ended then Did(a.(res := a.res.(destroyed := true)), End)
               else a;
      Cleanup(b)
  }

  /** StreamManager.handleClientFrame on an HTTP stream that is still registered. */
  function FromClient(s: Http, e: HttpEnv, f: Frame): Http {
    match f
    case ResMeta(wellFormed, status) =>
      if s.res.started || !wellFormed || !e.headOk then Abort(s, e, false)
      else Did(s.(res := s.res.(started := true)), Head(if status == 0 then 200 else status))
    case ResData(chunk) =>
      if !s.res.started then Abort(s, e, false)
      else if s.res.ended then s
      else if e.overfull then Abort(s, e, true)
      else if e.writeThrows then Abort(s, e, false)
      else
        var w := Did(s, Body(chunk));
        if !e.keepsUp && !w.res.paused then Send(w.(res := w.res.(paused := true)), e, Pause) else w
    case ResEnd =>
      if !s.res.started then Abort(s, e, false)
      else if s.res.ended then s
      else Did(s.(res := s.res.(ended := true)), End)
    case ResAbort =>
      Cleanup(if !s.res.started then ErrorResponse(s.(res := s.res.(ended := s.res.ended || e.errorHeadOk)), e)
              else if !s.res.ended then Did(s, End)
              else s)
    case _ => s
  }

  datatype Local =
    | ResponseDrain | ResponseFinish | ResponseClose    // events of the response
    | RequestError                                      // the end user's request failed
    | WriterFinish | WriterError                        // events of the request writer
    | IdleTimeout | ClientGone

  predicate Possible(s: Http, ev: Local) {
    match ev
    case ResponseDrain => s.res.paused
    case ResponseFinish => WritableEnded(s)
    case _ => true
  }

  function OnLocal(s: Http, e: HttpEnv, ev: Local): Http {
    match ev
    case ResponseDrain => if s.cleaned then s else Send(s.(res := s.res.(paused := false)), e, Resume)
    case ResponseFinish => Cleanup(s.(res := s.res.(ended := true)))
    case ResponseClose => if !s.cleaned && !s.res.ended then Abort(s, e, true) else s
    case RequestError => Abort(s, e, true)
    case WriterFinish => if s.cleaned || s.requestEnded then s else Send(s.(requestEnded := true), e, ReqEnd)
    case WriterError => Abort(s, e, false)
    case IdleTimeout => Abort(s, e, true)
    case ClientGone => Abort(s, e, false)
  }

  // ---------------------------------------------------------------------------
  // What a response and the frames to the tunnel client may look like
  // ---------------------------------------------------------------------------

  datatype Progress = NoHead | Streaming | Finished | Misused

  function ProgressStep(p: Progress, c: Call): Progress {
    match c
    case Head(_) => if p == NoHead then Streaming else Misused
    case Body(_) => if p == Streaming then Streaming else Misused
    case End => if p == Streaming then Finished else Misused
  }

  /** One head, then body chunks, then one end: anything else is Misused. */
  function ResponseProgress(calls: seq<Call>): Progress {
    if |calls| == 0 then NoHead else ProgressStep(ResponseProgress(calls[..|calls| - 1]), calls[|calls| - 1])
  }

  datatype Talk = Silent | Running(paused: bool, requestEnded: bool) | Aborted | Malformed

  function TalkStep(t: Talk, f: Frame): Talk {
    match f
    case ReqMeta => if t == Silent then Running(false, false) else Malformed
    case Pause => if t.Running? && !t.paused then t.(paused := true) else Malformed
    case Resume => if t.Running? && t.paused then t.(paused := false) else Malformed
    case ReqEnd => if t.Running? && !t.requestEnded then t.(requestEnded := true) else Malformed
    case ReqAbort => if t.Running? then Aborted else Malformed
    case _ => Malformed
  }

  /** REQ_META, alternating PAUSE / RESUME, at most one REQ_END, at most one REQ_ABORT and nothing after it. */
  function ClientTalk(log: seq<Frame>): Talk {
    if |log| == 0 then Silent else TalkStep(ClientTalk(log[..|log| - 1]), log[|log| - 1])
  }

  ghost predicate Inv(s: Http, wsOpen: bool) {
    var p := ResponseProgress(s.res.calls);
    var t := ClientTalk(s.toClient);
    && p != Misused
    && (End in s.res.calls <==> p == Finished)
    && (s.res.ended ==> p == Finished)
    && (!s.cleaned ==> s.res.started == (p != NoHead) && s.res.ended == (p == Finished) && !s.abortSent)
    && (!s.cleaned ==> !s.res.destroyed)
    && (s.cleaned ==> s.res.destroyed || WritableEnded(s))
    && t != Malformed
    && (!s.cleaned ==> t.Running?)
    && (!s.cleaned && wsOpen ==> t == Running(s.res.paused, s.requestEnded))
  }

  /** A stream that is gone has answered its end user, or hung up. */
  lemma GoneIsAnswered(s: Http, wsOpen: bool)
    requires Inv(s, wsOpen) && s.cleaned
    ensures s.res.destroyed || ResponseProgress(s.res.calls) == Finished
  {
    hide ResponseProgress, ClientTalk;
  }

  lemma CreatedInv(id: nat, ws: nat)
    ensures Inv(Created(id, ws), true)
  {
    assert [ReqMeta][..0] == [];
  }

  lemma AbortInv(s: Http, e: HttpEnv, notify: bool)
    requires Inv(s, e.wsOpen)
    ensures Inv(Abort(s, e, notify), e.wsOpen) && Abort(s, e, notify).cleaned
  {
    hide ResponseProgress, ClientTalk;
  }

  /** Whatever the tunnel client sends, the response only ever sees head, body chunks, end, in that order. */
  lemma FromClientInv(s: Http, e: HttpEnv, f: Frame)
    requires Inv(s, e.wsOpen) && !s.cleaned
    ensures Inv(FromClient(s, e, f), e.wsOpen)
  {
    hide ResponseProgress, ClientTalk;
    hide Abort;
    AbortInv(s, e, true);
    AbortInv(s, e, false);
  }

  /** Nothing called on the response or sent to the client is taken back, and at most one frame is sent. */
  predicate Advances(s: Http, t: Http) {
    s.res.calls <= t.res.calls && s.toClient <= t.toClient && |t.toClient| <= |s.toClient| + 1 && (s.cleaned ==> t.cleaned)
  }

  /** The response was told nothing but the relay's own error, or its end. */
  predicate OnlyEnds(s: Http, t: Http) {
    t.res.calls == s.res.calls || t.res.calls == s.res.calls + [End] || t.res.calls == s.res.calls + [Head(502), End]
  }

  /** The response was told this frame's head, body or end, or as above. */
  predicate Passes(s: Http, t: Http, f: Frame) {
    || OnlyEnds(s, t)
    || (f.ResData? && t.res.calls == s.res.calls + [Body(f.body)])
    || (f.ResMeta? && t.res.calls == s.res.calls + [Head(if f.status == 0 then 200 else f.status)])
  }

  /**
   * An abort ends the stream and leaves nobody waiting: the response is finished or destroyed, with a 502 if
   * it had no head; the client is told at most once, and only if asked for. Aborting again changes nothing.
   */
  predicate Settles(s: Http, t: Http, e: HttpEnv, notify: bool) {
    && Advances(s, t) && OnlyEnds(s, t) && t.cleaned
    && (s.cleaned ==> t == s)
    && (!s.cleaned ==> t.res.destroyed || End in t.res.calls)
    && (!s.cleaned && !s.res.started && e.errorHeadOk ==> t.res.calls == s.res.calls + [Head(502), End])
    && (s.res.started && s.res.ended ==> t.res.calls == s.res.calls)
    && t.toClient == s.toClient + if !s.cleaned && notify && e.wsOpen && !s.abortSent then [ReqAbort] else []
  }

  lemma ErrorResponseAdds(s: Http, e: HttpEnv)
    ensures ErrorResponse(s, e) == s.(res := s.res.(calls := s.res.calls + if e.errorHeadOk then [Head(502), End] else []))
  {
    hide ResponseProgress, ClientTalk;
    assert s.res.calls + [Head(502)] + [End] == s.res.calls + [Head(502), End];
    assert s.res.calls + [] == s.res.calls;
  }

  lemma AbortSettles(s: Http, e: HttpEnv, notify: bool)
    ensures Settles(s, Abort(s, e, notify), e, notify)
  {
    hide ResponseProgress, ClientTalk, ErrorResponse;
    ErrorResponseAdds(s, e);
    ErrorResponseAdds(Send(s.(abortSent := true), e, ReqAbort), e);
  }

  lemma ResDataPasses(s: Http, e: HttpEnv, c: Chunk)
    ensures var t := FromClient(s, e, ResData(c)); Advances(s, t) && Passes(s, t, ResData(c))
  {
    hide ResponseProgress, ClientTalk, Abort, WritableEnded;
    AbortSettles(s, e, true);
    AbortSettles(s, e, false);
  }

  lemma ResAbortPasses(s: Http, e: HttpEnv)
    ensures var t := FromClient(s, e, ResAbort); Advances(s, t) && Passes(s, t, ResAbort)
  {
    hide ResponseProgress, ClientTalk, Abort, WritableEnded;
    assert s.res.calls + [Head(502)] + [End] == s.res.calls + [Head(502), End];
  }

  lemma ResMetaPasses(s: Http, e: HttpEnv, wellFormed: bool, status: int)
    ensures var f := ResMeta(wellFormed, status); Advances(s, FromClient(s, e, f)) && Passes(s, FromClient(s, e, f), f)
  {
    hide ResponseProgress, ClientTalk, Abort, ErrorResponse, Cleanup, Send, WritableEnded;
    AbortSettles(s, e, false);
  }

  lemma ResEndPasses(s: Http, e: HttpEnv)
    ensures Advances(s, FromClient(s, e, ResEnd)) && Passes(s, FromClient(s, e, ResEnd), ResEnd)
  {
    hide ResponseProgress, ClientTalk, Abort, ErrorResponse, Cleanup, Send, WritableEnded;
    AbortSettles(s, e, false);
  }

  predicate ResponseFrame(f: Frame) {
    f.ResMeta? || f.ResData? || f.ResEnd? || f.ResAbort?
  }

  /** Any other frame is ignored. */
  lemma OthersIgnored(s: Http, e: HttpEnv, f: Frame)
    ensures !ResponseFrame(f) ==> FromClient(s, e, f) == s
  {
    hide ResponseProgress, ClientTalk, Abort, ErrorResponse, Cleanup, Send, WritableEnded;
  }

  lemma SelfPasses(s: Http, f: Frame)
    ensures Advances(s, s) && Passes(s, s, f)
  {
  }

  /** What a frame from the tunnel client can make of the response and of what the client is sent. */
  lemma FromClientPasses(s: Http, e: HttpEnv, f: Frame)
    ensures Advances(s, FromClient(s, e, f)) && Passes(s, FromClient(s, e, f), f)
  {
    hide FromClient, Advances, Passes;
    match f
    case ResMeta(wellFormed, status) => ResMetaPasses(s, e, wellFormed, status);
    case ResData(c) => ResDataPasses(s, e, c);
    case ResEnd => ResEndPasses(s, e);
    case ResAbort => ResAbortPasses(s, e);
    case _ => OthersIgnored(s, e, f); SelfPasses(s, f);
  }

  lemma OnLocalPasses(s: Http, e: HttpEnv, ev: Local)
    ensures Advances(s, OnLocal(s, e, ev)) && OnlyEnds(s, OnLocal(s, e, ev))
    ensures s.cleaned ==> OnLocal(s, e, ev).res.calls == s.res.calls && OnLocal(s, e, ev).toClient == s.toClient
  {
    hide ResponseProgress, ClientTalk, Abort;
    AbortSettles(s, e, true);
    AbortSettles(s, e, false);
  }

  lemma InvCloses(s: Http, open: bool, open': bool)
    requires Inv(s, open) && (open' ==> open)
    ensures Inv(s, open')
  {
  }

  lemma AbortFollows(s: Http, e: HttpEnv, notify: bool)
    ensures var t := Abort(s, e, notify); t.id == s.id && t.ws == s.ws && (s.cleaned ==> t.cleaned)
  {
    hide ResponseProgress, ClientTalk;
  }

  lemma FromClientFollows(s: Http, e: HttpEnv, f: Frame)
    ensures var t := FromClient(s, e, f); t.id == s.id && t.ws == s.ws && (s.cleaned ==> t.cleaned)
  {
    hide ResponseProgress, ClientTalk, Abort;
    AbortFollows(s, e, true);
    AbortFollows(s, e, false);
  }

  lemma OnLocalFollows(s: Http, e: HttpEnv, ev: Local)
    ensures var t := OnLocal(s, e, ev); t.id == s.id && t.ws == s.ws && (s.cleaned ==> t.cleaned)
  {
    hide ResponseProgress, ClientTalk, Abort;
    AbortFollows(s, e, true);
    AbortFollows(s, e, false);
  }

  lemma OnLocalInv(s: Http, e: HttpEnv, ev: Local)
    requires Inv(s, e.wsOpen) && Possible(s, ev)
    ensures Inv(OnLocal(s, e, ev), e.wsOpen)
  {
    hide ResponseProgress, ClientTalk;
    hide Abort;
    AbortInv(s, e, true);
    AbortInv(s, e, false);
  }

  // ---------------------------------------------------------------------------
  // Runs
  // ---------------------------------------------------------------------------

  datatype Event = Frame(f: Frame) | Happens(ev: Local)

  function Step(s: Http, e: HttpEnv, ev: Event): Http {
    match ev
    case Frame(f) => if s.cleaned then s else FromClient(s, e, f)
    case Happens(l) => if Possible(s, l) then OnLocal(s, e, l) else s
  }

  function Run(s: Http, script: seq<(HttpEnv, Event)>): Http {
    if |script| == 0 then s
    else var prefix := script[..|script| - 1]; Step(Run(s, prefix), script[|script| - 1].0, script[|script| - 1].1)
  }

  /** readyState is monotone: once a step finds the WebSocket not OPEN, so do all later ones. */
  ghost predicate OpenIsMonotone(script: seq<(HttpEnv, Event)>) {
    forall i, j :: 0 <= i < j < |script| && script[j].0.wsOpen ==> script[i].0.wsOpen
  }

  /** The invariant holds after every run, for the connection state the run ended in. */
  lemma {:induction false} RunInv(id: nat, ws: nat, script: seq<(HttpEnv, Event)>)
    requires OpenIsMonotone(script)
    ensures Inv(Run(Created(id, ws), script), |script| > 0 ==> script[|script| - 1].0.wsOpen)
  {
    if |script| == 0 {
      CreatedInv(id, ws);
    } else {
      var prefix := script[..|script| - 1];
      RunInv(id, ws, prefix);
      var s := Run(Created(id, ws), prefix);
      var (e, ev) := script[|script| - 1];
      assert |prefix| > 0 && e.wsOpen ==> script[|prefix| - 1].0.wsOpen;
      match ev
      case Frame(f) => if !s.cleaned { FromClientInv(s, e, f); }
      case Happens(l) => if Possible(s, l) { OnLocalInv(s, e, l); }
    }
  }

  /**
   * For every sequence of RES_* frames, aborts, timeouts and response events: the calls on the response
   * are one successful head, then writes, then one end (or a prefix of that); PAUSE and RESUME to the
   * tunnel client alternate and, while the stream lives, the last of them says whether the response is
   * paused; and once the stream is gone the response is finished or destroyed: no end user is left waiting.
   */
  lemma ResponseIsWellFormed(id: nat, ws: nat, script: seq<(HttpEnv, Event)>)
    requires OpenIsMonotone(script)
    ensures var s := Run(Created(id, ws), script);
            && ResponseProgress(s.res.calls) != Misused
            && ClientTalk(s.toClient) != Malformed
            && (!s.cleaned && (|script| > 0 ==> script[|script| - 1].0.wsOpen)
                ==> ClientTalk(s.toClient) == Running(s.res.paused, s.requestEnded))
            && (s.cleaned ==> s.res.destroyed || ResponseProgress(s.res.calls) == Finished)
  {
    RunInv(id, ws, script);
  }
}
