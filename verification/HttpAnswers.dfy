/**
 * What the relay does about one proxied request, input by input: when it drops it, what the tunnel client is
 * told, and what the end user's response is told; and what the pauses amount to over a whole run.
 */
module HttpAnswers {
  import opened Frames
  import opened HttpStream
  import HR = HttpResponses

  // ---------------------------------------------------------------------------
  // One input
  // ---------------------------------------------------------------------------

  /** The client's frame cannot be made part of the response, in the state it is in. */
  predicate Misfits(s: Http, e: HttpEnv, f: Frame) {
    match f
    case ResMeta(wellFormed, _) => s.res.started || !wellFormed || !e.headOk
    case ResData(_) => !s.res.started || (!s.res.ended && (e.overfull || e.writeThrows))
    case ResEnd => !s.res.started
    case _ => false
  }

  /** The end user, the request, a timer or the client gives the stream up; an end user who hangs up only while there is something to come. */
  predicate GivesUp(s: Http, l: Local) {
    l.RequestError? || l.WriterError? || l.IdleTimeout? || l.ClientGone? || (l.ResponseClose? && !s.res.ended)
  }

  /** What ends the stream before its time. */
  predicate Aborts(s: Http, e: HttpEnv, ev: Event) {
    match ev
    case Frame(f) => Misfits(s, e, f)
    case Happens(l) => GivesUp(s, l)
  }

  /** What makes the relay drop the record of a live stream. */
  predicate Drops(s: Http, e: HttpEnv, ev: Event) {
    Aborts(s, e, ev) || (ev.Frame? && ev.f.ResAbort?) || (ev.Happens? && ev.ev.ResponseFinish?)
  }

  /** The client is asked to stop: it has outrun the end user's buffer, or the end user or a timer gave up. */
  predicate AsksToStop(s: Http, e: HttpEnv, ev: Event) {
    && Aborts(s, e, ev)
    && match ev
       case Frame(f) => f.ResData? && s.res.started && e.overfull
       case Happens(l) => l.ResponseClose? || l.RequestError? || l.IdleTimeout?
  }

  /** A payload is written to the response. */
  predicate Writes(s: Http, e: HttpEnv, ev: Event) {
    ev.Frame? && ev.f.ResData? && !s.res.ended && !Misfits(s, e, ev.f)
  }

  /** What the client is told, while its WebSocket is OPEN. */
  function Told(s: Http, e: HttpEnv, ev: Event): seq<Frame> {
    if AsksToStop(s, e, ev) then [ReqAbort]
    else if Writes(s, e, ev) && !e.keepsUp && !s.res.paused then [Pause]
    else if ev.Happens? && ev.ev.ResponseDrain? then [Resume]
    else if ev.Happens? && ev.ev.WriterFinish? && !s.requestEnded then [ReqEnd]
    else []
  }

  /** What the response is told when the stream ends before its time: the relay's own error, or its end. */
  function CutOff(s: Http, e: HttpEnv): seq<Call> {
    if !s.res.started then (if e.errorHeadOk then [Head(502), End] else [])
    else if !s.res.ended then [End]
    else []
  }

  function Called(s: Http, e: HttpEnv, ev: Event): seq<Call> {
    if Aborts(s, e, ev) || (ev.Frame? && ev.f.ResAbort?) then CutOff(s, e)
    else if Writes(s, e, ev) then [Body(ev.f.body)]
    else if ev.Frame? && ev.f.ResMeta? then [Head(if ev.f.status == 0 then 200 else ev.f.status)]
    else if ev.Frame? && ev.f.ResEnd? && !s.res.ended then [End]
    else []
  }

  /** What one input makes of a record. */
  predicate Answers(s: Http, t: Http, e: HttpEnv, ev: Event) {
    && (t.cleaned <==> Drops(s, e, ev))
    && t.toClient == s.toClient + (if e.wsOpen then Told(s, e, ev) else [])
    && t.res.calls == s.res.calls + Called(s, e, ev)
    && (t.res.destroyed <==> t.cleaned && ((Aborts(s, e, ev) && s.res.started && !s.res.ended) || End !in t.res.calls))
  }

  /** A live record whose flags say what the response has been told. */
  predicate Ready(s: Http) {
    !s.cleaned && !s.abortSent && !s.res.destroyed && (End in s.res.calls <==> s.res.ended) && (s.res.ended ==> s.res.started)
  }

  lemma LiveIsReady(s: Http, wsOpen: bool)
    requires Inv(s, wsOpen) && !s.cleaned
    ensures Ready(s)
  {
    hide ResponseProgress, ClientTalk;
  }

  lemma AbortCutsOff(s: Http, e: HttpEnv, notify: bool)
    requires Ready(s)
    ensures var t := Abort(s, e, notify);
            && t.cleaned && t.toClient == s.toClient + (if e.wsOpen && notify then [ReqAbort] else [])
            && t.res.calls == s.res.calls + CutOff(s, e)
            && (t.res.destroyed <==> (s.res.started && !s.res.ended) || End !in t.res.calls)
  {
    hide ResponseProgress, ClientTalk;
    assert s.toClient + [] == s.toClient && s.res.calls + [] == s.res.calls;
    assert s.res.calls + [Head(502)] + [End] == s.res.calls + [Head(502), End];
  }

  lemma ResAbortCutsOff(s: Http, e: HttpEnv)
    requires Ready(s)
    ensures var t := FromClient(s, e, ResAbort);
            && t.cleaned && t.toClient == s.toClient && t.res.calls == s.res.calls + CutOff(s, e)
            && (t.res.destroyed <==> End !in t.res.calls)
  {
    hide ResponseProgress, ClientTalk;
    assert s.res.calls + [] == s.res.calls;
    assert s.res.calls + [Head(502)] + [End] == s.res.calls + [Head(502), End];
  }

  lemma FrameAnswers(s: Http, e: HttpEnv, f: Frame)
    requires Ready(s)
    ensures Answers(s, FromClient(s, e, f), e, Frame(f))
  {
    hide ResponseProgress, ClientTalk, Abort, CutOff, ErrorResponse;
    assert s.toClient + [] == s.toClient && s.res.calls + [] == s.res.calls;
    AbortCutsOff(s, e, true);
    AbortCutsOff(s, e, false);
    match f
    case ResAbort => hide FromClient; ResAbortCutsOff(s, e);
    case ResMeta(_, _) =>
    case ResData(_) =>
    case ResEnd =>
    case _ =>
  }

  lemma LocalAnswers(s: Http, e: HttpEnv, l: Local)
    requires Ready(s) && Possible(s, l)
    ensures Answers(s, OnLocal(s, e, l), e, Happens(l))
  {
    hide ResponseProgress, ClientTalk, Abort, CutOff, ErrorResponse;
    assert s.toClient + [] == s.toClient && s.res.calls + [] == s.res.calls;
    AbortCutsOff(s, e, true);
    AbortCutsOff(s, e, false);
  }

  /**
   * For every live record and every input: the record is dropped exactly if the response is over, the client
   * aborted it, its frame does not fit, or somebody gave up; the client is told exactly this, and the response
   * exactly that; and the response object is destroyed exactly if it was cut off in the middle or could not
   * even be given the relay's own error.
   */
  lemma AnswersExactly(s: Http, e: HttpEnv, ev: Event)
    requires Inv(s, e.wsOpen) && !s.cleaned && (ev.Happens? ==> Possible(s, ev.ev))
    ensures Answers(s, Step(s, e, ev), e, ev)
  {
    hide Inv, FromClient, OnLocal, Possible, Answers;
    LiveIsReady(s, e.wsOpen);
    match ev
    case Frame(f) => FrameAnswers(s, e, f);
    case Happens(l) => LocalAnswers(s, e, l);
  }

  // ---------------------------------------------------------------------------
  // Over a whole run
  // ---------------------------------------------------------------------------

  type Script = seq<(HttpEnv, Event)>

  /** A write has fallen behind, and the response has not drained since. */
  predicate Behind(s: Http, script: Script) {
    |script| > 0
    && var n := |script| - 1; var (e, ev) := script[n];
       if Writes(Run(s, script[..n]), e, ev) && !e.keepsUp then true
       else if ev.Happens? && ev.ev.ResponseDrain? then false
       else Behind(s, script[..n])
  }

  /** The end user's request has been passed on whole. */
  predicate Uploaded(script: Script) {
    |script| > 0
    && var ev := script[|script| - 1].1; (ev.Happens? && ev.ev.WriterFinish?) || Uploaded(script[..|script| - 1])
  }

  lemma InputMoves(s: Http, e: HttpEnv, ev: Event)
    requires Ready(s) && !Step(s, e, ev).cleaned
    ensures var t := Step(s, e, ev);
            && t.res.paused == (if Writes(s, e, ev) && !e.keepsUp then true
                                else if ev.Happens? && ev.ev.ResponseDrain? then false
                                else s.res.paused)
            && t.requestEnded == (s.requestEnded || (ev.Happens? && ev.ev.WriterFinish?))
  {
    hide ResponseProgress, ClientTalk, Abort, ErrorResponse;
    HR.AbortedBodies(s, e);
  }

  lemma {:induction false} HistoryIsKnown(id: nat, ws: nat, script: Script)
    requires OpenIsMonotone(script) && !Run(Created(id, ws), script).cleaned
    ensures var s := Run(Created(id, ws), script); s.res.paused == Behind(Created(id, ws), script) && s.requestEnded == Uploaded(script)
  {
    hide Inv, Step, Writes, OpenIsMonotone;
    var s := Created(id, ws);
    if |script| > 0 {
      var n := |script| - 1;
      HR.MonotonePrefix(script);
      var (e, ev) := script[n];
      if Run(s, script[..n]).cleaned { HR.CleanedStays(Run(s, script[..n]), e, ev); }
      HistoryIsKnown(id, ws, script[..n]);
      RunInv(id, ws, script[..n]);
      LiveIsReady(Run(s, script[..n]), |script[..n]| > 0 ==> script[..n][n - 1].0.wsOpen);
      InputMoves(Run(s, script[..n]), e, ev);
    }
  }

  /**
   * In every run, while the record lives and its client's WebSocket is OPEN: the client has been told PAUSE last
   * exactly if the end user's response has fallen behind and not drained since, and REQ_END exactly if the
   * request has been passed on whole.
   */
  lemma PausesExactly(id: nat, ws: nat, script: Script)
    requires OpenIsMonotone(script) && !Run(Created(id, ws), script).cleaned
    requires |script| > 0 ==> script[|script| - 1].0.wsOpen
    ensures ClientTalk(Run(Created(id, ws), script).toClient) == Running(Behind(Created(id, ws), script), Uploaded(script))
  {
    hide Run, Inv, Behind, Uploaded;
    HistoryIsKnown(id, ws, script);
    ResponseIsWellFormed(id, ws, script);
  }
}
