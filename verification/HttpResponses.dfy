/**
 * What one proxied response comes to over a whole run: which of the client's payloads it carries, and how
 * long its record stays registered.
 */
module HttpResponses {
  import opened Frames
  import opened HttpStream

  // ---------------------------------------------------------------------------
  // What the response carries
  // ---------------------------------------------------------------------------

  /** The chunks written to the response, in order. */
  function Bodies(calls: seq<Call>): seq<Chunk> {
    if |calls| == 0 then []
    else Bodies(calls[..|calls| - 1]) + if calls[|calls| - 1].Body? then [calls[|calls| - 1].chunk] else []
  }

  /** The stream is registered and its response not ended: a RES_DATA is meant for it. */
  predicate Receives(s: Http) {
    !s.cleaned && !s.res.ended
  }

  /** The RES_DATA payloads that reached the stream while it was, in order. */
  function Payloads(s: Http, script: seq<(HttpEnv, Event)>): seq<Chunk> {
    if |script| == 0 then []
    else
      var n := |script| - 1;
      Payloads(s, script[..n]) + if Receives(Run(s, script[..n])) then PayloadOf(script[n].1) else []
  }

  function PayloadOf(ev: Event): seq<Chunk> {
    if ev.Frame? && ev.f.ResData? then [ev.f.body] else []
  }

  /** A RES_DATA is not written now, but ends the stream: there is no head yet, too much is buffered, or the write throws. */
  predicate Refuses(s: Http, e: HttpEnv) {
    !s.res.started || e.overfull || e.writeThrows
  }

  /** That happened to some RES_DATA of the script. */
  predicate Refused(s: Http, script: seq<(HttpEnv, Event)>) {
    |script| > 0
    && var n := |script| - 1; var before := Run(s, script[..n]);
       Refused(s, script[..n]) || (Receives(before) && PayloadOf(script[n].1) != [] && Refuses(before, script[n].0))
  }

  /** A RES_END arrived on the stream and ended its response. */
  predicate EndedByClient(s: Http, script: seq<(HttpEnv, Event)>) {
    |script| > 0
    && var n := |script| - 1;
       EndedByClient(s, script[..n])
       || (Receives(Run(s, script[..n])) && script[n].1 == Frame(ResEnd) && Run(s, script[..n]).res.started)
  }

  lemma {:induction false} BodiesConcat(a: seq<Call>, b: seq<Call>)
    ensures Bodies(a + b) == Bodies(a) + Bodies(b)
  {
    if |b| == 0 {
      assert a + b == a;
    } else {
      var n := |b| - 1;
      BodiesConcat(a, b[..n]);
      assert (a + b)[..|a| + n] == a + b[..n];
      assert (a + b)[|a| + n] == b[n];
    }
  }

  /** Only a RES_DATA ever adds to the bodies. */
  lemma OnlyEndsBodies(s: Http, t: Http)
    requires OnlyEnds(s, t)
    ensures Bodies(t.res.calls) == Bodies(s.res.calls)
  {
    BodiesConcat(s.res.calls, [End]);
    BodiesConcat(s.res.calls, [Head(502), End]);
    assert Bodies([End]) == [] && Bodies([Head(502), End]) == [] by {
      assert [End][..0] == [] && [Head(502), End][..1] == [Head(502)] && [Head(502)][..0] == [];
    }
  }

  /** A RES_DATA on a stream that receives is written whole, or ends the stream: which, the guards say. */
  lemma ResDataBodies(s: Http, e: HttpEnv, c: Chunk)
    requires Receives(s)
    ensures var t := FromClient(s, e, ResData(c));
            && Bodies(t.res.calls) == Bodies(s.res.calls) + (if Refuses(s, e) then [] else [c])
            && (t.cleaned <==> Refuses(s, e)) && (Receives(t) <==> !Refuses(s, e))
  {
    hide ResponseProgress, ClientTalk, Abort, Settles, Bodies;
    AbortedBodies(s, e);
    BodiesConcat(s.res.calls, [Body(c)]);
    OneBody(c);
  }

  lemma OneBody(c: Chunk)
    ensures Bodies([Body(c)]) == [c]
  {
    assert [Body(c)][..0] == [];
  }

  lemma AbortedBodies(s: Http, e: HttpEnv)
    ensures forall notify :: Bodies(Abort(s, e, notify).res.calls) == Bodies(s.res.calls)
    ensures !s.cleaned ==> forall notify :: Abort(s, e, notify).cleaned
  {
    hide Abort, Bodies;
    forall notify ensures Bodies(Abort(s, e, notify).res.calls) == Bodies(s.res.calls) && Abort(s, e, notify).cleaned {
      AbortSettles(s, e, notify);
      OnlyEndsBodies(s, Abort(s, e, notify));
    }
  }

  lemma ResAbortBodies(s: Http, e: HttpEnv)
    ensures var t := FromClient(s, e, ResAbort); Bodies(t.res.calls) == Bodies(s.res.calls) && !Receives(t)
  {
    hide FromClient, Bodies, Advances;
    ResAbortPasses(s, e);
    OnlyEndsBodies(s, FromClient(s, e, ResAbort));
    ResAbortCleans(s, e);
  }

  lemma ResAbortCleans(s: Http, e: HttpEnv)
    ensures FromClient(s, e, ResAbort).cleaned
  {
    hide ResponseProgress, ClientTalk, ErrorResponse;
  }

  lemma OtherFrameBodies(s: Http, e: HttpEnv, f: Frame)
    requires !f.ResData? && !f.ResAbort?
    ensures var t := FromClient(s, e, f);
            && Bodies(t.res.calls) == Bodies(s.res.calls)
            && (Receives(t) ==> Receives(s))
            && (f == ResEnd && Receives(s) && s.res.started ==> !t.cleaned && t.res.ended)
  {
    hide ResponseProgress, ClientTalk, Abort, Bodies, ErrorResponse, Cleanup, Send;
    AbortedBodies(s, e);
    BodiesConcat(s.res.calls, [End]);
    if f.ResMeta? { BodiesConcat(s.res.calls, [Head(if f.status == 0 then 200 else f.status)]); }
    NoBodies();
    if s.cleaned { AbortSettles(s, e, false); }
  }

  lemma NoBodies()
    ensures Bodies([End]) == [] && forall status :: Bodies([Head(status)]) == []
  {
    assert [End][..0] == [];
    assert forall status :: [Head(status)][..0] == [];
  }

  lemma OnLocalBodies(s: Http, e: HttpEnv, ev: Local)
    ensures var t := OnLocal(s, e, ev);
            Bodies(t.res.calls) == Bodies(s.res.calls) && (Receives(t) ==> Receives(s))
  {
    hide OnLocal, Bodies;
    OnLocalPasses(s, e, ev);
    OnlyEndsBodies(s, OnLocal(s, e, ev));
    OnLocalReceives(s, e, ev);
  }

  lemma OnLocalReceives(s: Http, e: HttpEnv, ev: Local)
    ensures Receives(OnLocal(s, e, ev)) ==> Receives(s)
  {
    hide ResponseProgress, ClientTalk, Abort;
    AbortedBodies(s, e);
    AbortSettles(s, e, true);
    AbortSettles(s, e, false);
  }

  /** One step: what is written and what has come in grow together, unless the payload ends the stream. */
  lemma StepBodies(s: Http, e: HttpEnv, ev: Event)
    ensures var t := Step(s, e, ev);
            && Bodies(t.res.calls) == Bodies(s.res.calls) + (if Receives(s) && !Refuses(s, e) then PayloadOf(ev) else [])
            && (Receives(t) ==> Receives(s) && (PayloadOf(ev) == [] || !Refuses(s, e)))
  {
    hide FromClient, OnLocal, Bodies, Refuses;
    match ev
    case Frame(f) =>
      if !s.cleaned {
        if f.ResData? {
          if Receives(s) { ResDataBodies(s, e, f.body); } else { LateData(s, e, f.body); }
        } else if f.ResAbort? {
          ResAbortBodies(s, e);
        } else {
          OtherFrameBodies(s, e, f);
        }
      }
    case Happens(l) => OnLocalBodies(s, e, l);
  }

  /** Data that comes after the response ended is dropped. */
  lemma LateData(s: Http, e: HttpEnv, c: Chunk)
    requires s.res.ended
    ensures Bodies(FromClient(s, e, ResData(c)).res.calls) == Bodies(s.res.calls) && !Receives(FromClient(s, e, ResData(c)))
  {
    hide ResponseProgress, ClientTalk, Abort, Bodies;
    AbortedBodies(s, e);
    AbortSettles(s, e, false);
  }

  /** What the response carries, given what has been refused so far. */
  ghost predicate Carries(s: Http, payloads: seq<Chunk>, refused: bool) {
    && Bodies(s.res.calls) <= payloads
    && (refused <==> Bodies(s.res.calls) != payloads)
    && (refused ==> !Receives(s))
  }

  lemma StepCarries(s: Http, e: HttpEnv, ev: Event, payloads: seq<Chunk>, refused: bool)
    requires Carries(s, payloads, refused)
    ensures Carries(Step(s, e, ev), payloads + (if Receives(s) then PayloadOf(ev) else []),
                    refused || (Receives(s) && PayloadOf(ev) != [] && Refuses(s, e)))
  {
    hide Step, Bodies, Refuses;
    StepBodies(s, e, ev);
  }

  lemma {:induction false} RunCarries(id: nat, ws: nat, script: seq<(HttpEnv, Event)>)
    ensures var s := Created(id, ws); Carries(Run(s, script), Payloads(s, script), Refused(s, script))
    ensures var s := Created(id, ws); EndedByClient(s, script) ==> !Receives(Run(s, script)) && !Refused(s, script)
  {
    hide Step, Carries, Receives, Refuses, PayloadOf;
    var s := Created(id, ws);
    if |script| == 0 {
      NothingCarried(id, ws);
    } else {
      var n := |script| - 1;
      RunCarries(id, ws, script[..n]);
      StepCarries(Run(s, script[..n]), script[n].0, script[n].1, Payloads(s, script[..n]), Refused(s, script[..n]));
      StepEnds(Run(s, script[..n]), script[n].0, script[n].1);
      if Refused(s, script[..n]) { RefusedIsOver(Run(s, script[..n]), Payloads(s, script[..n])); }
    }
  }

  lemma NothingCarried(id: nat, ws: nat)
    ensures Carries(Created(id, ws), [], false)
  {
  }

  lemma RefusedIsOver(s: Http, payloads: seq<Chunk>)
    requires Carries(s, payloads, true)
    ensures !Receives(s)
  {
  }

  /** A response that has ended stays so; a RES_END on a started response ends it. */
  lemma StepEnds(s: Http, e: HttpEnv, ev: Event)
    ensures Receives(Step(s, e, ev)) ==> Receives(s)
    ensures Receives(s) && ev == Frame(ResEnd) && s.res.started ==> !Receives(Step(s, e, ev)) && PayloadOf(ev) == []
  {
    hide Bodies, FromClient, OnLocal;
    StepBodies(s, e, ev);
    if Receives(s) && ev == Frame(ResEnd) { OtherFrameBodies(s, e, ResEnd); }
  }

  /**
   * For every run: the chunks written to the response are a prefix, in order and each whole, of the RES_DATA
   * payloads that reached the stream before its response ended; they are all of them if and only if no such
   * payload came before the head, over the buffer limit, or to a failing write; and they are if the
   * response was ended by RES_END.
   */
  lemma BodiesCarried(id: nat, ws: nat, script: seq<(HttpEnv, Event)>)
    ensures var s := Created(id, ws); var t := Run(s, script);
            && Bodies(t.res.calls) <= Payloads(s, script)
            && (Bodies(t.res.calls) == Payloads(s, script) <==> !Refused(s, script))
            && (EndedByClient(s, script) ==> Bodies(t.res.calls) == Payloads(s, script))
  {
    hide Run, Bodies, Payloads, Refused, EndedByClient, Receives;
    RunCarries(id, ws, script);
  }

  // ---------------------------------------------------------------------------
  // Responses that are over but still registered
  // ---------------------------------------------------------------------------

  /** What makes the relay drop a stream whose response the client has ended. */
  predicate Drops(ev: Event) {
    match ev
    case Frame(f) => f.ResMeta? || f.ResAbort?
    case Happens(l) => l.ResponseFinish? || l.RequestError? || l.WriterError? || l.IdleTimeout? || l.ClientGone?
  }

  /**
   * Once RES_END has ended the response, the record goes exactly on `finish`, on a failure of the request, a
   * timeout or a disconnect of the client, or on another RES_META or RES_ABORT: not when the end user hangs up.
   */
  lemma EndedDropsIff(s: Http, e: HttpEnv, ev: Event)
    requires Inv(s, e.wsOpen) && !s.cleaned && s.res.ended
    ensures Step(s, e, ev).cleaned <==> Drops(ev)
    ensures !Drops(ev) ==> Step(s, e, ev).res.ended
  {
    hide ResponseProgress, ClientTalk, Abort, Bodies;
    AbortedBodies(s, e);
  }

  /** The response is over and the record still registered. */
  predicate Lingers(s: Http) {
    !s.cleaned && (WritableEnded(s) || s.res.destroyed)
  }

  /** A RES_END ended the response, and nothing that drops the stream has come since. */
  predicate EndedSince(s: Http, script: seq<(HttpEnv, Event)>) {
    |script| > 0
    && var n := |script| - 1; var before := Run(s, script[..n]);
       || (Receives(before) && before.res.started && script[n].1 == Frame(ResEnd))
       || (EndedSince(s, script[..n]) && !Drops(script[n].1))
  }

  lemma LingersIsEnded(s: Http, wsOpen: bool)
    requires Inv(s, wsOpen)
    ensures Lingers(s) <==> !s.cleaned && s.res.ended
  {
    hide ResponseProgress, ClientTalk;
  }

  /** Nothing but a RES_END makes a response end while its record stays. */
  lemma ReceivesEndsIff(s: Http, e: HttpEnv, ev: Event)
    requires Inv(s, e.wsOpen) && Receives(s)
    ensures var t := Step(s, e, ev); !t.cleaned && t.res.ended <==> ev == Frame(ResEnd) && s.res.started
  {
    hide ResponseProgress, ClientTalk, Abort, Bodies;
    AbortedBodies(s, e);
  }

  lemma CleanedStays(s: Http, e: HttpEnv, ev: Event)
    requires s.cleaned
    ensures Step(s, e, ev).cleaned
  {
    hide FromClient, OnLocal;
    match ev
    case Frame(_) =>
    case Happens(l) => OnLocalFollows(s, e, l);
  }

  /**
   * In every run, a record whose response is finished or destroyed still holds its place exactly when RES_END
   * ended the response and neither `finish`, a failed request, a timeout, a disconnect of the client nor
   * another RES_META or RES_ABORT has come since. An end user who hangs up before `finish` does not free it.
   */
  lemma {:induction false} LingersIff(id: nat, ws: nat, script: seq<(HttpEnv, Event)>)
    requires OpenIsMonotone(script)
    ensures Lingers(Run(Created(id, ws), script)) <==> EndedSince(Created(id, ws), script)
  {
    hide Step, Inv, Drops, WritableEnded, Lingers, OpenIsMonotone;
    var s := Created(id, ws);
    RunInv(id, ws, script);
    LingersIsEnded(Run(s, script), |script| > 0 ==> script[|script| - 1].0.wsOpen);
    if |script| > 0 {
      var n := |script| - 1;
      MonotonePrefix(script);
      LingersIff(id, ws, script[..n]);
      RunInv(id, ws, script[..n]);
      LingersIsEnded(Run(s, script[..n]), |script[..n]| > 0 ==> script[..n][n - 1].0.wsOpen);
      InvCloses(Run(s, script[..n]), |script[..n]| > 0 ==> script[..n][n - 1].0.wsOpen, script[n].0.wsOpen);
      var before, e, ev := Run(s, script[..n]), script[n].0, script[n].1;
      if before.cleaned {
        CleanedStays(before, e, ev);
      } else if before.res.ended {
        EndedDropsIff(before, e, ev);
      } else {
        ReceivesEndsIff(before, e, ev);
      }
    }
  }

  lemma MonotonePrefix(script: seq<(HttpEnv, Event)>)
    requires OpenIsMonotone(script) && |script| > 0
    ensures var n := |script| - 1;
            && OpenIsMonotone(script[..n])
            && (script[n].0.wsOpen ==> n > 0 ==> script[..n][n - 1].0.wsOpen)
  {
  }
}
