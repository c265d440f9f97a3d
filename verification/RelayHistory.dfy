/**
 * What the pause bookkeeping of a relayed stream means: over every run it is a function of the frames its client
 * and its agent have sent, and of what writes and completed sends have found.
 */
module RelayHistory {
  import opened Frames
  import opened Relay
  import opened RelayInvariant
  import opened RelayMoves
  import opened RelayRuns
  import RA = RelayAnswers
  import RC = RelayControl
  import S = RelayStream
  import SI = RelayStreamInvariant

  // ---------------------------------------------------------------------------
  // What a step is to one stream
  // ---------------------------------------------------------------------------

  /** What the step brings to the stream under handle h, if anything. */
  function InputOf(r: Relay, ev: Event, h: nat): Option<RA.Input> {
    if !IsTcp(r.all, h) then None
    else match ev
      case ClientSends(_, _, f) => if FromItsClient(r, ev, h) then Some(RA.OfClient(f)) else None
      case AgentSends(_, _, f) => if FromItsAgent(r, ev, h) then Some(RA.OfAgent(f)) else None
      case StreamEvent(g, l) => if g == h then Some(RA.Happens(l)) else None
      case ClientLeaves(ws) => if TcpAt(r.all, h).ident.ws == ws then Some(RA.Happens(S.ClientGone)) else None
      case AgentLeaves(a) => if TcpAt(r.all, h).ident.id in OwnedBy(r.books, a) then Some(RA.Happens(S.AgentGone)) else None
      case _ => None
  }

  /** What an input, if there is one, makes of a stream. */
  ghost predicate Took(s: S.Stream, t: S.Stream, e: S.Env, i: Option<RA.Input>) {
    match i
    case None => t == s
    case Some(v) => RA.Arrives(s, e, v) && t == RA.Next(s, e, v)
  }

  ghost predicate Did(s: S.Stream, t: S.Stream, e: S.Env, i: Option<RA.Input>) {
    match i
    case None => t == s
    case Some(v) => RA.Arrives(s, e, v) && RA.Does(s, t, e, v)
  }

  lemma InputMoved(r: Relay, cfg: Config, rd: Readings, ev: Event, h: nat)
    requires Inv(r, cfg) && Enabled(r, cfg, rd, ev) && IsTcp(r.all, h) && !TcpAt(r.all, h).cleaned
    ensures var t := TcpAt(r.all, h); var e := EnvOf(r, cfg, rd, t.ident);
            SI.Inv(t, e) && Took(t, Moved(r, cfg, rd, ev, h), e, InputOf(r, ev, h))
  {
    hide InvBut, SI.Inv, S.FromClient, S.FromAgent, S.Abort;
    EntryAt(r, cfg, h);
    TcpReady(r, cfg, rd, TcpAt(r.all, h));
  }

  lemma TookDid(s: S.Stream, t: S.Stream, e: S.Env, i: Option<RA.Input>)
    requires SI.Inv(s, e) && Took(s, t, e, i)
    ensures Did(s, t, e, i)
  {
    hide SI.Inv, RA.Arrives, RA.Next, RA.Does;
    if i.Some? { RA.AnswersExactly(s, e, i.value); }
  }

  // ---------------------------------------------------------------------------
  // The past of a stream
  // ---------------------------------------------------------------------------

  /** What has come in on a stream, the latest last: the stream before and after it, and the surroundings it found. */
  datatype Past = Start | Then(past: Past, s: S.Stream, t: S.Stream, e: S.Env, i: RA.Input)

  function LastInput(cfg: Config, script: Script, h: nat): Option<RA.Input> {
    InputOf(After(cfg, Before(script)), Last(script).1, h)
  }

  /** The surroundings the last step found. */
  function LastEnv(cfg: Config, script: Script, h: nat): S.Env {
    var r := After(cfg, Before(script));
    EnvOf(r, cfg, Last(script).0, TcpAt(r.all, h).ident)
  }

  function PastOf(cfg: Config, script: Script, h: nat): Past {
    if script == [] then Start
    else
      match LastInput(cfg, script, h)
      case None => PastOf(cfg, Before(script), h)
      case Some(i) =>
        Then(PastOf(cfg, Before(script), h), StreamAfter(cfg, Before(script), h), StreamAfter(cfg, script, h), LastEnv(cfg, script, h), i)
  }

  // ---------------------------------------------------------------------------
  // History
  // ---------------------------------------------------------------------------

  /** The frame of an input that is one. */
  function FrameOf(i: RA.Input): Frame {
    match i
    case OfClient(f) => f
    case OfAgent(f) => f
    case Happens(_) => Unknown
  }

  /** The client has confirmed the stream: its TCP_OPEN_ACK has come. */
  predicate Confirmed(p: Past) {
    match p
    case Start => false
    case Then(q, _, _, _, i) => (i.OfClient? && FrameOf(i).TcpOpenAck?) || Confirmed(q)
  }

  /** The last PAUSE or RESUME the agent sent on the confirmed stream was a PAUSE. */
  predicate AgentAsked(p: Past) {
    match p
    case Start => false
    case Then(q, _, _, _, i) =>
      if i.OfAgent? && Confirmed(q) && FrameOf(i).Pause? then true
      else if i.OfAgent? && Confirmed(q) && FrameOf(i).Resume? then false
      else AgentAsked(q)
  }

  /** The last PAUSE or RESUME the client sent on the stream was a PAUSE. */
  predicate ClientAsked(p: Past) {
    match p
    case Start => false
    case Then(q, _, _, _, i) =>
      if i.OfClient? && FrameOf(i).Pause? then true else if i.OfClient? && FrameOf(i).Resume? then false else ClientAsked(q)
  }

  /** A payload of the client goes to the far side, or is refused there; a virtual socket that has overflowed is not written to. */
  predicate WritesNow(s: S.Stream, i: RA.Input) {
    i.OfClient? && FrameOf(i).TcpData? && !s.sock.destroyed
  }

  /** A send to the agent completes, and finds its WebSocket below low water. */
  predicate FarSendCompletes(s: S.Stream, e: S.Env, i: RA.Input) {
    i == RA.Happens(S.FarSendDone) && e.low && !s.sock.destroyed
  }

  /** A payload has left the agent's WebSocket over high water, and no send to it has completed below low water since. */
  predicate DrainDue(p: Past) {
    match p
    case Start => false
    case Then(q, s, _, e, i) =>
      if WritesNow(s, i) && s.ident.peer.Agent? && e.agentOpen && e.full then true
      else if FarSendCompletes(s, e, i) then false
      else DrainDue(q)
  }

  /** A payload was refused by the far side or left it over high water, and it has not drained since. */
  predicate FarBacked(p: Past) {
    match p
    case Start => false
    case Then(q, s, _, e, i) =>
      if WritesNow(s, i) && (e.full || (s.ident.peer.Agent? && !e.agentOpen)) then true
      else if i == RA.Happens(S.ExternalDrain) then false
      else if FarSendCompletes(s, e, i) && DrainDue(q) then false
      else FarBacked(q)
  }

  /** How many chunks have been sent to the client. */
  function Delivered(s: S.Stream): nat {
    |DataOf(s.sent.toClient)|
  }

  /** One of the chunks sent to the client just now has found its WebSocket over high water. */
  predicate OverHighWater(s: S.Stream, t: S.Stream, e: S.Env) {
    Delivered(t) > Delivered(s) && RC.SomeHigh(e.highs, Delivered(t) - Delivered(s))
  }

  /** How many of the sends to the client have completed. */
  function Completed(p: Past): nat {
    match p
    case Start => 0
    case Then(q, _, _, _, i) => Completed(q) + if i == RA.Happens(S.SendDone) then 1 else 0
  }

  /** A chunk has found the client's WebSocket over high water, and since then no last outstanding send has completed below low water. */
  predicate ClientBacked(p: Past) {
    match p
    case Start => false
    case Then(q, s, t, e, i) =>
      if OverHighWater(s, t, e) then true
      else if i == RA.Happens(S.SendDone) && e.low && Delivered(s) == Completed(p) then false
      else ClientBacked(q)
  }

  // ---------------------------------------------------------------------------
  // The bookkeeping is the history
  // ---------------------------------------------------------------------------

  ghost predicate KnowsHistory(s: S.Stream, p: Past) {
    && (s.awaitingClientAck <==> s.ident.peer.Agent? && !Confirmed(p))
    && s.flow.agentPaused == AgentAsked(p) && s.flow.peerPausedRead == ClientAsked(p)
    && s.flow.wsBackpressured == FarBacked(p) && s.flow.localPausedForWs == ClientBacked(p)
    && s.sock.pendingDrain == DrainDue(p)
    && s.flow.pendingSends == Delivered(s) - Completed(p)
  }

  /** Nothing has come in on a stream that does not exist yet. */
  lemma {:induction false} NothingYet(cfg: Config, script: Script, h: nat)
    requires Run(cfg, script).Some? && h >= |After(cfg, Before(script)).all|
    ensures PastOf(cfg, script, h) == Start
  {
    hide Step, Enabled, LastEnv;
    if script != [] && Before(script) != [] {
      var before := Before(script);
      StepAdds(After(cfg, Before(before)), cfg, Last(before).0, Last(before).1, h);
      NothingYet(cfg, before, h);
    }
  }

  lemma FreshKnows(t: S.Stream)
    requires FreshTcp(t)
    ensures KnowsHistory(t, Start)
  {
    hide DataOf;
  }

  lemma {:induction false} DataOfFrames(chunks: seq<Chunk>)
    ensures DataOf(RA.DataFrames(chunks)) == chunks
  {
    if |chunks| > 0 {
      var n := |chunks| - 1;
      DataOfFrames(chunks[..n]);
      assert RA.DataFrames(chunks)[..n] == RA.DataFrames(chunks[..n]);
      assert chunks == chunks[..n] + [chunks[n]];
    }
  }

  /** Control frames carry nothing. */
  lemma NoPayload(f: Frame)
    requires !f.TcpData?
    ensures DataOf([f]) == [] && DataOf([]) == []
  {
    assert [f][..0] == [];
  }

  lemma ForwardsCounted(s: S.Stream, t: S.Stream, e: S.Env, i: RA.Input)
    requires RA.Answers(s, t, e, i) && !t.cleaned
    ensures |DataOf(t.sent.toClient)| == |DataOf(s.sent.toClient)| + |RA.Forwards(s, e, i)|
  {
    hide DataOf, RA.DataFrames, RA.Forwards, RA.FarTold, RA.HeldBack, RA.Overflows;
    var data, rest := RA.DataFrames(RA.Forwards(s, e, i)), RA.Change(RA.Busy(s), RA.Busy(t));
    DataOfFrames(RA.Forwards(s, e, i));
    NoPayload(Pause);
    NoPayload(Resume);
    if e.wsOpen {
      assert t.sent.toClient == s.sent.toClient + (data + rest);
      DataOfConcat(data, rest);
      DataOfConcat(s.sent.toClient, data + rest);
    } else {
      assert s.sent.toClient + [] == s.sent.toClient;
    }
  }

  lemma InputKnows(p: Past, s: S.Stream, t: S.Stream, e: S.Env, i: RA.Input)
    requires !t.cleaned && t.ident == s.ident && KnowsHistory(s, p) && RA.FlagsMove(s, t, e, i)
    requires Delivered(t) == Delivered(s) + |RA.Forwards(s, e, i)| && (e.wsOpen || RA.Forwards(s, e, i) == [])
    requires i.OfAgent? ==> s.ident.peer.Agent?
    ensures KnowsHistory(t, Then(p, s, t, e, i))
  {
    hide DataOf, RA.Forwards, RC.SomeHigh;
    RA.OneHigh(e.highs);
  }

  lemma StepKnows(p: Past, s: S.Stream, t: S.Stream, e: S.Env, i: RA.Input)
    requires !t.cleaned && t.ident == s.ident && KnowsHistory(s, p) && RA.Does(s, t, e, i) && RA.Arrives(s, e, i)
    ensures KnowsHistory(t, Then(p, s, t, e, i))
  {
    hide DataOf, RA.Forwards, KnowsHistory, RA.FlagsMove, RA.Answers, S.Possible;
    ForwardsCounted(s, t, e, i);
    OnlyOpenForwards(s, t, e, i);
    InputKnows(p, s, t, e, i);
  }

  /** What the last step was to a stream that it left alive. */
  lemma LastStep(cfg: Config, script: Script, h: nat)
    requires script != [] && StreamOfRun(cfg, script, h) && !StreamAfter(cfg, script, h).cleaned
    ensures Run(cfg, Before(script)).Some?
    ensures var s, t := StreamAfter(cfg, Before(script), h), StreamAfter(cfg, script, h);
            if h >= |After(cfg, Before(script)).all| then FreshTcp(t)
            else
              && StreamOfRun(cfg, Before(script), h) && !s.cleaned && t.ident == s.ident
              && Did(s, t, LastEnv(cfg, script, h), LastInput(cfg, script, h))
  {
    hide Step, Enabled, Did, Took, Moved, InvBut, SI.Inv, InputOf;
    var r := After(cfg, Before(script));
    var (rd, ev) := Last(script);
    RunInv(cfg, Before(script));
    if IsTcp(r.all, h) {
      StepMoved(r, cfg, rd, ev, h);
      RC.SameIdent(r, cfg, rd, ev, h);
      assert !TcpAt(r.all, h).cleaned by { StaysGone(r, cfg, rd, ev, h); }
      InputMoved(r, cfg, rd, ev, h);
      TookDid(TcpAt(r.all, h), Moved(r, cfg, rd, ev, h), EnvOf(r, cfg, rd, TcpAt(r.all, h).ident), InputOf(r, ev, h));
    } else if h < |r.all| {
      WebStays(r, cfg, rd, ev, h);
    } else {
      StepAdds(r, cfg, rd, ev, h);
    }
  }

  /** A stream that is gone stays gone. */
  lemma StaysGone(r: Relay, cfg: Config, rd: Readings, ev: Event, h: nat)
    requires Inv(r, cfg) && Enabled(r, cfg, rd, ev) && IsTcp(r.all, h)
    ensures TcpAt(r.all, h).cleaned ==> Moved(r, cfg, rd, ev, h).cleaned
  {
    hide InvBut, SI.Inv, S.FromClient, S.FromAgent, S.OnLocal, S.Possible, S.Abort;
    var t := TcpAt(r.all, h);
    if t.cleaned {
      EntryAt(r, cfg, h);
      TcpReady(r, cfg, rd, t);
      RegisteredOf(r, cfg);
      FromItsOwnLive(r, ev, h);
      LostStays(t, EnvOf(r, cfg, rd, t.ident));
      if ev.StreamEvent? && ev.h == h { SI.OnLocalInv(t, EnvOf(r, cfg, rd, t.ident), ev.ev); }
    }
  }

  /** Over every run, what the relay keeps of a live stream to decide its pauses is exactly what has come in. */
  lemma {:induction false} HistoryIsKnown(cfg: Config, script: Script, h: nat)
    requires StreamOfRun(cfg, script, h) && !StreamAfter(cfg, script, h).cleaned
    ensures KnowsHistory(StreamAfter(cfg, script, h), PastOf(cfg, script, h))
  {
    hide Run, RA.Does, RA.Arrives, KnowsHistory, FreshTcp, LastInput, LastEnv;
    if script == [] {
      NothingAtFirst(cfg, h);
    } else {
      LastStep(cfg, script, h);
      var s, t := StreamAfter(cfg, Before(script), h), StreamAfter(cfg, script, h);
      if h >= |After(cfg, Before(script)).all| {
        NothingYet(cfg, script, h);
        FreshKnows(t);
      } else {
        HistoryIsKnown(cfg, Before(script), h);
        var i := LastInput(cfg, script, h);
        if i.Some? { StepKnows(PastOf(cfg, Before(script), h), s, t, LastEnv(cfg, script, h), i.value); }
      }
    }
  }

  lemma OnlyOpenForwards(s: S.Stream, t: S.Stream, e: S.Env, i: RA.Input)
    requires RA.Answers(s, t, e, i) && !t.cleaned
    ensures e.wsOpen || RA.Forwards(s, e, i) == []
  {
  }
}
