/**
 * The HTTP stream record as an object, with the code's own order of sends, flag updates and response calls.
 * Each method is tied to its step in HttpStream, and promises what a caller and the end user get from it.
 */
module HttpStreamObject {
  import opened Frames
  import opened HttpStream
  import HA = HttpAnswers

  class HttpState {
    const id: nat
    const ws: nat

    var cleaned: bool
    var abortSent: bool
    var requestEnded: bool
    var responseStarted: bool
    var responseEnded: bool
    var responsePaused: bool

    /** The response object: destroyed or not, and the calls that succeeded on it. */
    var resDestroyed: bool
    var calls: seq<Call>

    ghost var toClient: seq<Frame>

    ghost function Val(): Http
      reads this
    {
      Http(id, ws, cleaned, abortSent, requestEnded,
           Response(responseStarted, responseEnded, responsePaused, resDestroyed, calls), toClient)
    }

    /** createStream, once REQ_META has been sent. */
    constructor (streamId: nat, socket: nat)
      ensures Val() == Created(streamId, socket)
    {
      id, ws := streamId, socket;
      cleaned, abortSent, requestEnded := false, false, false;
      responseStarted, responseEnded, responsePaused, resDestroyed := false, false, false, false;
      calls, toClient := [], [ReqMeta];
    }

    method SendFrame(e: HttpEnv, f: Frame)
      modifies this`toClient
      ensures Val() == Send(old(Val()), e, f)
    {
      if e.wsOpen {
        toClient := toClient + [f];
      }
    }

    /** A successful call on the response. */
    method Call(c: Call)
      modifies this`calls
      ensures Val() == Did(old(Val()), c)
    {
      calls := calls + [c];
    }

    /** cleanupStream */
    method CleanupStream()
      modifies this
      ensures Val() == Cleanup(old(Val()))
    {
      if cleaned {
        return;
      }
      cleaned := true;
      if End !in calls {
        resDestroyed := true;
      }
    }

    /** writeHead(502, ...) and end(...), inside one try. */
    method SendErrorResponse(e: HttpEnv) returns (ok: bool)
      modifies this`calls
      ensures ok == e.errorHeadOk && Val() == ErrorResponse(old(Val()), e)
    {
      if !e.errorHeadOk {
        return false;
      }
      Call(Head(502));
      Call(End);
      return true;
    }

    /** abortStream */
    method AbortStream(e: HttpEnv, notifyClient: bool)
      modifies this
      ensures Val() == Abort(old(Val()), e, notifyClient)
      ensures old(Inv(Val(), e.wsOpen)) ==> Inv(Val(), e.wsOpen)
      ensures Settles(old(Val()), Val(), e, notifyClient)
    {
      hide ClientTalk, ResponseProgress, Inv, Settles;
      AbortSettles(Val(), e, notifyClient);
      if Inv(Val(), e.wsOpen) { AbortInv(Val(), e, notifyClient); }
      if cleaned {
        return;
      }
      if notifyClient && e.wsOpen && !abortSent {
        abortSent := true;
        SendFrame(e, ReqAbort);
      }
      if !responseStarted {
        var _ := SendErrorResponse(e);
      } else if !responseEnded {
        Call(End);
        resDestroyed := true;
      }
      CleanupStream();
    }

    /** The RES_DATA case of handleClientFrame. */
    method HandleResData(e: HttpEnv, chunk: Chunk)
      modifies this
      ensures Val() == FromClient(old(Val()), e, ResData(chunk))
    {
      hide ClientTalk, ResponseProgress, Abort;
      if !responseStarted {
        AbortStream(e, false);
        return;
      }
      if responseEnded {
        return;
      }
      if e.overfull {
        AbortStream(e, true);
        return;
      }
      if e.writeThrows {
        AbortStream(e, false);
        return;
      }
      Call(Body(chunk));
      if !e.keepsUp && !responsePaused {
        responsePaused := true;
        SendFrame(e, Pause);
      }
    }

    /** The RES_ABORT case. */
    method HandleResAbort(e: HttpEnv)
      modifies this
      ensures Val() == FromClient(old(Val()), e, ResAbort)
    {
      hide ClientTalk, ResponseProgress, Abort;
      if !responseStarted {
        var ok := SendErrorResponse(e);
        if ok {
          responseEnded := true;
        }
      } else if !responseEnded {
        Call(End);
      }
      CleanupStream();
    }

    /** The RES_META case. */
    method HandleResMeta(e: HttpEnv, wellFormed: bool, status: int)
      modifies this
      ensures Val() == FromClient(old(Val()), e, ResMeta(wellFormed, status))
    {
      hide ClientTalk, ResponseProgress, Abort;
      if responseStarted {
        AbortStream(e, false);
        return;
      }
      if !wellFormed || !e.headOk {
        AbortStream(e, false);
        return;
      }
      Call(Head(if status == 0 then 200 else status));
      responseStarted := true;
    }

    /** The RES_END case. */
    method HandleResEnd(e: HttpEnv)
      modifies this
      ensures Val() == FromClient(old(Val()), e, ResEnd)
    {
      hide ClientTalk, ResponseProgress, Abort;
      if !responseStarted {
        AbortStream(e, false);
        return;
      }
      if responseEnded {
        return;
      }
      responseEnded := true;
      Call(End);
    }

    /**
     * handleClientFrame, for a stream that is still registered under this WebSocket: the response is told
     * nothing but this frame's head, body or end, or the relay's own error; a record in order stays in order;
     * and if the stream is gone afterwards, its end user has been answered or hung up on.
     */
    method HandleClientFrame(e: HttpEnv, f: Frame)
      modifies this
      ensures Val() == FromClient(old(Val()), e, f)
      ensures old(Inv(Val(), e.wsOpen)) && !old(cleaned) ==> Inv(Val(), e.wsOpen)
      ensures Advances(old(Val()), Val()) && Passes(old(Val()), Val(), f)
      ensures old(Inv(Val(), e.wsOpen)) && !old(cleaned) && cleaned ==> resDestroyed || ResponseProgress(calls) == Finished
      ensures !ResponseFrame(f) ==> Val() == old(Val())
      ensures old(Inv(Val(), e.wsOpen)) && !old(cleaned) ==> HA.Answers(old(Val()), Val(), e, Event.Frame(f))
    {
      hide ClientTalk, ResponseProgress, FromClient, Advances, Passes, OnlyEnds, Inv, HA.Answers;
      ghost var after := FromClient(Val(), e, f);
      FromClientPasses(Val(), e, f);
      OthersIgnored(Val(), e, f);
      if Inv(Val(), e.wsOpen) && !cleaned {
        FromClientInv(Val(), e, f);
        HA.AnswersExactly(Val(), e, Event.Frame(f));
        if after.cleaned { GoneIsAnswered(after, e.wsOpen); }
      }
      match f
      case ResMeta(wellFormed, status) => HandleResMeta(e, wellFormed, status);
      case ResData(chunk) => HandleResData(e, chunk);
      case ResEnd => HandleResEnd(e);
      case ResAbort => HandleResAbort(e);
      case _ =>
    }

    /** The listeners and timers of the stream: they never add to the response but its end or the relay's own error. */
    method HandleLocal(e: HttpEnv, ev: Local)
      modifies this
      ensures Val() == OnLocal(old(Val()), e, ev)
      ensures old(Inv(Val(), e.wsOpen) && Possible(Val(), ev)) ==> Inv(Val(), e.wsOpen)
      ensures Advances(old(Val()), Val()) && OnlyEnds(old(Val()), Val())
      ensures old(cleaned) ==> calls == old(calls) && toClient == old(toClient)
      ensures old(Inv(Val(), e.wsOpen) && Possible(Val(), ev)) && !old(cleaned) ==> HA.Answers(old(Val()), Val(), e, Event.Happens(ev))
    {
      hide ClientTalk, ResponseProgress, Abort, Advances, OnlyEnds, Inv, HA.Answers;
      OnLocalPasses(Val(), e, ev);
      if Inv(Val(), e.wsOpen) && Possible(Val(), ev) {
        OnLocalInv(Val(), e, ev);
        if !cleaned { HA.AnswersExactly(Val(), e, Event.Happens(ev)); }
      }
      match ev
      case ResponseDrain =>
        if cleaned {
          return;
        }
        responsePaused := false;
        SendFrame(e, Resume);
      case ResponseFinish =>
        responseEnded := true;
        CleanupStream();
      case ResponseClose =>
        if !cleaned && !responseEnded {
          AbortStream(e, true);
        }
      case RequestError => AbortStream(e, true);
      case WriterFinish =>
        if cleaned || requestEnded {
          return;
        }
        requestEnded := true;
        SendFrame(e, ReqEnd);
      case WriterError => AbortStream(e, false);
      case IdleTimeout => AbortStream(e, true);
      case ClientGone => AbortStream(e, false);
    }
  }
}
