/**
 * The two legs of a tunnelled TCP stream. A leg ties the relay's record of the stream to the record at
 * one end (the tunnel client, or the local agent) through the frame logs between them: the log each
 * side has sent, and how much of it the other side has been given so far.
 */
module TunnelLegs {
  import opened Frames
  import S = RelayStream
  import SI = RelayStreamInvariant
  import SE = RelayStreamEffects
  import C = TcpClient
  import A = TcpAgent

  /** The tunnel client's end: its record, once TCP_OPEN arrived; how far it has read the relay's log, and the relay its. */
  datatype Near = Near(c: Option<C.Stream>, kc: nat, kr: nat) {
    /** The record, where there is one; of no meaning otherwise. */
    function Rec(): C.Stream { if c.Some? then c.value else C.Opened(0).(cleaned := true) }
    function ReadByClient(): Near { this.(kc := kc + 1) }
    function ReadByRelay(): Near { this.(kr := kr + 1) }
  }

  /** The agent's end: its record, once TCP_CONNECT_ACK arrived, and the local socket it is bound to. */
  datatype Far = Far(a: Option<A.Stream>, sock: nat, kg: nat, ka: nat) {
    function Rec(): A.Stream { if a.Some? then a.value else A.Registered(0).(cleaned := true) }
    function ReadByAgent(): Far { this.(kg := kg + 1) }
    function ReadByRelay(): Far { this.(ka := ka + 1) }
  }

  // ---------------------------------------------------------------------------
  // Reading logs frame by frame
  // ---------------------------------------------------------------------------

  lemma {:induction false} TalkPrefix(log: seq<Frame>, k: nat)
    requires S.ClientTalk(log) != S.Malformed && k <= |log|
    ensures S.ClientTalk(log[..k]) != S.Malformed
    ensures S.ClientTalk(log[..k]).Ended? ==> k == |log|
    ensures S.ClientTalk(log[..k]).Unopened? <==> k == 0
  {
    if k == |log| {
      assert log[..k] == log;
      if k > 0 { TalkPrefix(log[..k - 1], k - 1); }
    } else {
      TalkPrefix(log[..|log| - 1], k);
      assert log[..|log| - 1][..k] == log[..k];
    }
  }

  lemma TalkNext(log: seq<Frame>, k: nat)
    requires k < |log|
    ensures S.ClientTalk(log[..k + 1]) == S.TalkStep(S.ClientTalk(log[..k]), log[k])
  {
    assert log[..k + 1][..k] == log[..k];
  }

  lemma {:induction false} FarPrefix(log: seq<Frame>, k: nat)
    requires S.FarTalk(log).FarWord? && k <= |log|
    ensures var p, w := S.FarTalk(log[..k]), S.FarTalk(log);
            p.FarWord? && (p.ended ==> w.ended) && (p.reply != S.NoReply ==> w.reply == p.reply)
  {
    if k == |log| {
      assert log[..k] == log;
    } else {
      FarPrefix(log[..|log| - 1], k);
      assert log[..|log| - 1][..k] == log[..k];
    }
  }

  lemma FarNext(log: seq<Frame>, k: nat)
    requires k < |log|
    ensures S.FarTalk(log[..k + 1]) == S.FarStep(S.FarTalk(log[..k]), log[k])
  {
    assert log[..k + 1][..k] == log[..k];
  }

  lemma {:induction false} ClientWordPrefix(log: seq<Frame>, k: nat)
    requires C.Word(log) != C.Garbled && k <= |log|
    ensures C.Word(log[..k]) != C.Garbled
    ensures C.Word(log[..k]).Done? ==> k == |log|
  {
    if k == |log| {
      assert log[..k] == log;
    } else {
      ClientWordPrefix(log[..|log| - 1], k);
      assert log[..|log| - 1][..k] == log[..k];
    }
  }

  /** The relay's next frame of a client's log. */
  lemma ClientWordNext(log: seq<Frame>, k: nat)
    requires C.Word(log) != C.Garbled && k < |log|
    ensures C.Word(log[..k + 1]) == C.WordStep(C.Word(log[..k]), log[k]) != C.Garbled
    ensures C.Word(log[..k]).Speaking? && SE.TcpMode(log[k])
  {
    assert log[..k + 1][..k] == log[..k];
    ClientWordPrefix(log, k);
    ClientWordPrefix(log, k + 1);
  }

  lemma {:induction false} AgentWordPrefix(log: seq<Frame>, k: nat)
    requires A.Word(log) != A.Garbled && k <= |log|
    ensures A.Word(log[..k]) != A.Garbled
    ensures A.Word(log[..k]).Done? ==> k == |log|
  {
    if k == |log| {
      assert log[..k] == log;
    } else {
      AgentWordPrefix(log[..|log| - 1], k);
      assert log[..|log| - 1][..k] == log[..k];
    }
  }

  lemma AgentWordNext(log: seq<Frame>, k: nat)
    requires A.Word(log) != A.Garbled && k < |log|
    ensures A.Word(log[..k + 1]) == A.WordStep(A.Word(log[..k]), log[k]) != A.Garbled
    ensures A.Word(log[..k]).Speaking?
  {
    assert log[..k + 1][..k] == log[..k];
    AgentWordPrefix(log, k);
    AgentWordPrefix(log, k + 1);
  }

  lemma DataNext(log: seq<Frame>, k: nat)
    requires k < |log|
    ensures DataOf(log[..k + 1]) == DataOf(log[..k]) + Carried(log[k])
  {
    assert log[..k + 1] == log[..k] + [log[k]];
    DataOfAppend(log[..k], log[k]);
  }

  lemma SamePrefix(log: seq<Frame>, log': seq<Frame>, k: nat)
    requires log <= log' && k <= |log|
    ensures log'[..k] == log[..k]
  {
  }

  // ---------------------------------------------------------------------------
  // The client leg
  // ---------------------------------------------------------------------------

  /** The log holds a TCP_CLOSE. */
  predicate Closed(log: seq<Frame>) {
    S.FarTalk(log).FarWord? && S.FarTalk(log).closed
  }

  /** What the relay has taken in from the client is what the client sent, as far as the relay has read. */
  ghost predicate NearIn(t: S.Stream, c: C.Stream, kr: nat)
    requires kr <= |c.sent|
  {
    var w := C.Word(c.sent[..kr]);
    && t.took.received <= DataOf(c.sent[..kr])
    && (!t.sock.destroyed ==> t.took.received == DataOf(c.sent[..kr]))
    && (t.took.clientEnded ==> w.Done?)
    && (Closed(t.sent.toFar) ==> t.took.clientEnded && t.took.received == DataOf(c.sent[..kr]))
    && (!t.cleaned ==> w.Speaking? && (t.ident.peer.Agent? ==> t.awaitingClientAck == !w.acked))
  }

  /** What the client has written locally is what the relay sent, as far as the client has read. */
  ghost predicate NearOut(t: S.Stream, c: C.Stream, kc: nat)
    requires kc <= |t.sent.toClient|
  {
    && c.took.written <= DataOf(t.sent.toClient[..kc])
    && (!c.cleaned ==> c.took.written == DataOf(t.sent.toClient[..kc]) && S.ClientTalk(t.sent.toClient[..kc]).Talking?)
    && (c.took.serverEnded ==> S.ClientTalk(t.sent.toClient[..kc]).Ended? && c.took.written == DataOf(t.sent.toClient[..kc]))
  }

  ghost predicate ClientLeg(t: S.Stream, n: Near, up: bool) {
    && n.kc <= |t.sent.toClient|
    && t.sent.toClient != []
    && !t.took.crossed
    && match n.c
       case None =>
         n.kc == 0 && n.kr == 0 && t.took.received == [] && !t.took.clientEnded && t.awaitingClientAck == t.ident.peer.Agent?
       case Some(c) =>
         n.kc > 0 && n.kr <= |c.sent| && c.id == t.ident.id && !c.took.crossed
         && C.Inv(c, up) && NearIn(t, c, n.kr) && NearOut(t, c, n.kc)
  }

  lemma NearUnprompted(t: S.Stream, t': S.Stream, e: S.Env, n: Near, up: bool)
    requires ClientLeg(t, n, up) && SE.Unprompted(t, t') && SI.Inv(t', e)
    ensures ClientLeg(t', n, up)
  {
    hide S.ClientTalk, S.FarTalk, C.Word, DataOf, C.Inv, SE.FarControl;
    ClosedByClient(t', e);
    SamePrefix(t.sent.toClient, t'.sent.toClient, n.kc);
  }

  lemma NearCloses(t: S.Stream, n: Near, up: bool, up': bool)
    requires ClientLeg(t, n, up) && (up' ==> up)
    ensures ClientLeg(t, n, up')
  {
  }

  /** The relay closes towards the far side only once the client has ended the stream, and with all of its data. */
  lemma ClosedByClient(t: S.Stream, e: S.Env)
    requires SI.Inv(t, e)
    ensures Closed(t.sent.toFar) ==> t.took.clientEnded && t.cleaned && DataOf(t.sent.toFar) == t.took.received
    ensures !t.cleaned && t.sock.destroyed ==> !t.awaitingClientAck
  {
    hide S.ClientTalk, S.FarTalk, DataOf, SI.BufferExact, SI.FifoUp, SI.FifoDown;
  }

  /** The relay reads the client's next frame, and the stream is still registered. */
  lemma NearReads(t: S.Stream, e: S.Env, n: Near, up: bool)
    requires ClientLeg(t, n, up) && SI.Inv(t, e) && !t.cleaned && n.c.Some? && n.kr < |n.Rec().sent|
    ensures ClientLeg(S.FromClient(t, e, n.Rec().sent[n.kr]), n.(kr := n.kr + 1), up)
  {
    hide S.ClientTalk, C.Word, DataOf, S.FromClient, SI.InvWith, S.FarTalk, NearOut;
    var c := n.Rec();
    var f := c.sent[n.kr];
    ClientWordNext(c.sent, n.kr);
    DataNext(c.sent, n.kr);
    SI.FromClientInv(t, e, f);
    SE.FromClientTakes(t, e, f);
    var t' := S.FromClient(t, e, f);
    NearOutGrows(t, t', c, n.kc);
    ClosedByClient(t, e);
    ClosedByClient(t', e);
    if t.sock.destroyed { SE.DestroyedStaysUnclosed(t, e, f); }
    assert NearIn(t', c, n.kr + 1);
  }

  lemma NearOutGrows(t: S.Stream, t': S.Stream, c: C.Stream, kc: nat)
    requires kc <= |t.sent.toClient| && t.sent.toClient <= t'.sent.toClient && NearOut(t, c, kc)
    ensures NearOut(t', c, kc)
  {
    SamePrefix(t.sent.toClient, t'.sent.toClient, kc);
  }

  /** The relay reads and drops a frame, since the stream is gone. */
  lemma NearDrops(t: S.Stream, n: Near, up: bool)
    requires ClientLeg(t, n, up) && t.cleaned && t.sock.destroyed && n.c.Some? && n.kr < |n.Rec().sent|
    ensures ClientLeg(t, n.(kr := n.kr + 1), up)
  {
    hide S.ClientTalk, C.Word, DataOf, NearOut;
    ClientWordNext(n.Rec().sent, n.kr);
    DataNext(n.Rec().sent, n.kr);
  }

  lemma NothingRead(log: seq<Frame>)
    ensures DataOf(log[..0]) == [] && S.ClientTalk(log[..0]) == S.Unopened
    ensures C.Word(log[..0]) == C.Speaking(false, false) && A.Word(log[..0]) == A.Speaking(false)
  {
  }

  lemma OpenedRecord(id: nat, ce: C.Env, wellFormed: bool, admit: bool)
    ensures var c := C.Open(id, ce, wellFormed, admit);
            c.id == id && c.took == C.Took([], [], false, false)
  {
    hide C.Word, DataOf;
  }

  /** The client reads TCP_OPEN. */
  lemma NearOpens(t: S.Stream, e: S.Env, n: Near, ce: C.Env, wellFormed: bool, admit: bool)
    requires ClientLeg(t, n, ce.wsOpen) && SI.Inv(t, e) && n.kc < |t.sent.toClient|
    requires t.sent.toClient[n.kc].TcpOpen?
    ensures n == Near(None, 0, 0)
    ensures ClientLeg(t, Near(Some(C.Open(t.ident.id, ce, wellFormed, admit)), 1, 0), ce.wsOpen)
  {
    hide S.ClientTalk, S.FarTalk, C.Word, A.Word, DataOf, C.Open, C.Inv;
    var log := t.sent.toClient;
    assert S.ClientTalk(log) != S.Malformed;
    TalkPrefix(log, n.kc);
    TalkPrefix(log, n.kc + 1);
    TalkNext(log, n.kc);
    DataNext(log, n.kc);
    NothingRead(log);
    C.OpenInv(t.ident.id, ce, wellFormed, admit);
    OpenedRecord(t.ident.id, ce, wellFormed, admit);
    NothingRead(C.Open(t.ident.id, ce, wellFormed, admit).sent);
  }

  /** The client reads any later frame while its record is in place. */
  lemma NearWrites(t: S.Stream, e: S.Env, n: Near, ce: C.Env)
    requires ClientLeg(t, n, ce.wsOpen) && SI.Inv(t, e) && n.kc < |t.sent.toClient| && n.c.Some? && !n.Rec().cleaned
    ensures !t.sent.toClient[n.kc].TcpOpen?
    ensures ClientLeg(t, n.(c := Some(C.FromServer(n.Rec(), ce, t.sent.toClient[n.kc])), kc := n.kc + 1), ce.wsOpen)
    ensures C.FromServer(n.Rec(), ce, t.sent.toClient[n.kc]).cleaned <==> Terminal(t.sent.toClient[n.kc])
  {
    hide S.ClientTalk, C.Word, DataOf, S.FarTalk;
    var log, c := t.sent.toClient, n.Rec();
    assert S.ClientTalk(log) != S.Malformed;
    TalkPrefix(log, n.kc);
    TalkPrefix(log, n.kc + 1);
    TalkNext(log, n.kc);
    DataNext(log, n.kc);
    C.FromServerInv(c, ce, log[n.kc]);
    SamePrefix(c.sent, C.FromServer(c, ce, log[n.kc]).sent, n.kr);
  }

  /** The client reads and drops a frame, since its record is gone. */
  lemma NearIgnores(t: S.Stream, e: S.Env, n: Near, up: bool)
    requires ClientLeg(t, n, up) && SI.Inv(t, e) && n.kc < |t.sent.toClient| && n.c.Some? && n.Rec().cleaned
    ensures !t.sent.toClient[n.kc].TcpOpen?
    ensures ClientLeg(t, n.(kc := n.kc + 1), up)
  {
    hide S.ClientTalk, C.Word, DataOf, S.FarTalk;
    var log := t.sent.toClient;
    assert S.ClientTalk(log) != S.Malformed;
    TalkPrefix(log, n.kc);
    TalkPrefix(log, n.kc + 1);
    TalkNext(log, n.kc);
    DataNext(log, n.kc);
  }

  /** Something happens at the client itself. */
  lemma NearLocal(t: S.Stream, n: Near, ce: C.Env, ev: C.Local)
    requires ClientLeg(t, n, ce.wsOpen) && n.c.Some? && C.Possible(n.Rec(), ce, ev)
    ensures ClientLeg(t, n.(c := Some(C.OnLocal(n.Rec(), ce, ev))), ce.wsOpen)
  {
    hide S.ClientTalk, C.Word, DataOf;
    C.OnLocalInv(n.Rec(), ce, ev);
    SamePrefix(n.Rec().sent, C.OnLocal(n.Rec(), ce, ev).sent, n.kr);
  }

  // ---------------------------------------------------------------------------
  // The agent leg
  // ---------------------------------------------------------------------------

  ghost predicate FarIn(t: S.Stream, a: A.Stream, ka: nat)
    requires ka <= |a.sent|
  {
    var w := A.Word(a.sent[..ka]);
    && t.took.accepted <= DataOf(a.sent[..ka])
    && (!t.sock.destroyed ==> t.took.accepted == DataOf(a.sent[..ka]) && w.Speaking?)
    && (t.took.farEnded ==> w.Done? && t.took.accepted == DataOf(a.sent[..ka]))
  }

  ghost predicate FarOut(t: S.Stream, a: A.Stream, kg: nat)
    requires kg <= |t.sent.toFar|
  {
    var w := S.FarTalk(t.sent.toFar[..kg]);
    && w.FarWord? && w.reply == S.Acknowledged
    && a.took.written <= DataOf(t.sent.toFar[..kg])
    && (!a.cleaned ==> a.took.written == DataOf(t.sent.toFar[..kg]) && !w.ended)
    && (a.took.serverEnded ==> a.took.written == DataOf(t.sent.toFar[..kg]) && (w.ended || (kg == |t.sent.toFar| && t.cleaned)))
  }

  /** No data goes to the agent before the acknowledgement, and every reply names the stream's own request. */
  ghost predicate AckFirst(i: S.Identity, log: seq<Frame>) {
    forall k :: 0 <= k < |log| ==>
      && (log[k].TcpData? ==> S.FarTalk(log[..k]).FarWord? && S.FarTalk(log[..k]).reply == S.Acknowledged)
      && (log[k].TcpConnectAck? || log[k].ConnectRejected? ==> log[k].reply == S.ReplyTo(i))
  }

  /** `heard` says that the agent's WebSocket is OPEN at the relay. */
  ghost predicate AgentLeg(t: S.Stream, f: Far, up: bool, heard: bool) {
    && f.kg <= |t.sent.toFar|
    && AckFirst(t.ident, t.sent.toFar)
    && (!t.cleaned && !t.awaitingClientAck && heard ==> S.FarTalk(t.sent.toFar).FarWord? && S.FarTalk(t.sent.toFar).reply == S.Acknowledged)
    && match f.a
       case None => f.ka == 0 && t.took.accepted == [] && !t.took.farEnded
       case Some(a) =>
         f.ka <= |a.sent| && a.streamId == t.ident.id && !t.awaitingClientAck
         && A.Inv(a, up) && FarIn(t, a, f.ka) && FarOut(t, a, f.kg)
  }

  /** Adding frames that are neither data nor replies, or the right ones at the right time, keeps the order. */
  lemma AckFirstGrows(i: S.Identity, log: seq<Frame>, log': seq<Frame>)
    requires AckFirst(i, log) && log <= log' && S.FarTalk(log').FarWord?
    requires forall k :: |log| <= k < |log'| ==>
               (log'[k].TcpData? ==> S.FarTalk(log).FarWord? && S.FarTalk(log).reply == S.Acknowledged)
               && (log'[k].TcpConnectAck? || log'[k].ConnectRejected? ==> log'[k].reply == S.ReplyTo(i))
    ensures AckFirst(i, log')
  {
    forall k | 0 <= k < |log'|
      ensures log'[k].TcpData? ==> S.FarTalk(log'[..k]).FarWord? && S.FarTalk(log'[..k]).reply == S.Acknowledged
    {
      if k < |log| {
        SamePrefix(log, log', k);
      } else {
        FarPrefix(log', k);
        FarPrefix(log'[..k], |log|);
        assert log'[..k][..|log|] == log;
      }
    }
  }

  /** Control frames leave the connect-level reply as it is. */
  lemma {:induction false} ControlKeepsReply(log: seq<Frame>, log': seq<Frame>)
    requires log <= log' && S.FarTalk(log').FarWord?
    requires forall k :: |log| <= k < |log'| ==> SE.Control(log'[k])
    ensures S.FarTalk(log).FarWord? && S.FarTalk(log').reply == S.FarTalk(log).reply
    decreases |log'|
  {
    if |log'| > |log| {
      var before := log'[..|log'| - 1];
      FarPrefix(log', |before|);
      ControlKeepsReply(log, before);
    } else {
      assert log' == log;
    }
  }

  /** Control frames to the agent change neither the order nor the reply. */
  lemma FarGrows(t: S.Stream, t': S.Stream, f: Far)
    requires SE.FarControl(t, t') && f.kg <= |t.sent.toFar| && S.FarTalk(t'.sent.toFar).FarWord?
    ensures t.sent.toFar[..f.kg] == t'.sent.toFar[..f.kg]
    ensures AckFirst(t.ident, t.sent.toFar) ==> AckFirst(t.ident, t'.sent.toFar)
    ensures S.FarTalk(t.sent.toFar).FarWord? && S.FarTalk(t'.sent.toFar).reply == S.FarTalk(t.sent.toFar).reply
  {
    hide S.FarTalk, AckFirst;
    ControlKeepsReply(t.sent.toFar, t'.sent.toFar);
    if AckFirst(t.ident, t.sent.toFar) { AckFirstGrows(t.ident, t.sent.toFar, t'.sent.toFar); }
  }

  lemma FarUnprompted(t: S.Stream, t': S.Stream, e: S.Env, f: Far, up: bool, heard: bool)
    requires AgentLeg(t, f, up, heard) && SE.Unprompted(t, t') && SI.Inv(t', e) && t.ident.peer.Agent?
    ensures AgentLeg(t', f, up, heard)
  {
    hide S.FarTalk, S.ClientTalk, A.Word, DataOf, A.Inv, AckFirst, SE.FarControl;
    assert S.FarTalk(t'.sent.toFar).FarWord?;
    FarGrows(t, t', f);
  }

  lemma FarCloses(t: S.Stream, f: Far, up: bool, up': bool, heard: bool, heard': bool)
    requires AgentLeg(t, f, up, heard) && (up' ==> up) && (heard' ==> heard)
    ensures AgentLeg(t, f, up', heard')
  {
    hide AckFirst, S.FarTalk, A.Word;
  }

  /** The relay reads the agent's next frame, and the stream is still registered. */
  lemma FarReads(t: S.Stream, e: S.Env, f: Far, up: bool, heard: bool)
    requires AgentLeg(t, f, up, heard) && SI.Inv(t, e) && !t.cleaned && t.ident.peer.Agent? && f.a.Some? && f.ka < |f.Rec().sent|
    ensures AgentLeg(S.FromAgent(t, e, f.Rec().sent[f.ka]), f.(ka := f.ka + 1), up, heard)
  {
    hide S.FarTalk, S.ClientTalk, A.Word, DataOf, AckFirst, S.FromAgent, SE.FarControl, SI.LiveTalk, SI.LastTalk;
    var a := f.Rec();
    var g := a.sent[f.ka];
    AgentWordNext(a.sent, f.ka);
    DataNext(a.sent, f.ka);
    SI.FromAgentInv(t, e, g);
    SE.FromAgentTakes(t, e, g);
    SE.FromAgentFar(t, e, g);
    FarGrows(t, S.FromAgent(t, e, g), f);
  }

  /** The relay reads and drops a frame, since the stream is gone. */
  lemma FarDrops(t: S.Stream, f: Far, up: bool, heard: bool)
    requires AgentLeg(t, f, up, heard) && t.cleaned && t.sock.destroyed && f.a.Some? && f.ka < |f.Rec().sent|
    ensures AgentLeg(t, f.(ka := f.ka + 1), up, heard)
  {
    hide S.FarTalk, A.Word, DataOf, AckFirst, FarOut;
    AgentWordNext(f.Rec().sent, f.ka);
    DataNext(f.Rec().sent, f.ka);
  }

  /** The agent reads TCP_CONNECT_ACK: it has no record yet, and the reply names the stream's own request. */
  lemma FarAcked(t: S.Stream, e: S.Env, f: Far, up: bool, heard: bool)
    requires AgentLeg(t, f, up, heard) && SI.Inv(t, e) && f.kg < |t.sent.toFar| && t.sent.toFar[f.kg].TcpConnectAck?
    ensures f.a.None? && t.sent.toFar[f.kg].reply == S.ReplyTo(t.ident)
    ensures var w := S.FarTalk(t.sent.toFar[..f.kg + 1]); w.FarWord? && w.reply == S.Acknowledged && !w.ended
    ensures DataOf(t.sent.toFar[..f.kg + 1]) == [] && !t.awaitingClientAck
  {
    hide S.ClientTalk, S.FarTalk, A.Word, DataOf, A.Inv, SI.LiveTalk, SI.LastTalk;
    var log := t.sent.toFar;
    assert S.FarTalk(log).FarWord?;
    FarPrefix(log, f.kg);
    FarPrefix(log, f.kg + 1);
    FarNext(log, f.kg);
    NoDataYet(t.ident, log, f.kg + 1);
  }

  /** ... so a local socket may be bound to the stream. */
  lemma FarBinds(t: S.Stream, e: S.Env, f: Far, up: bool, heard: bool, sock: nat)
    requires AgentLeg(t, f, up, heard) && SI.Inv(t, e) && t.ident.peer.Agent? && f.kg < |t.sent.toFar| && t.sent.toFar[f.kg].TcpConnectAck?
    ensures AgentLeg(t, Far(Some(A.Registered(t.ident.id)), sock, f.kg + 1, 0), up, heard)
  {
    hide S.ClientTalk, S.FarTalk, A.Word, DataOf, A.Inv, SI.InvWith, AckFirst;
    FarAcked(t, e, f, up, heard);
    A.RegisteredInv(t.ident.id, up);
    NothingRead(A.Registered(t.ident.id).sent);
  }

  /** A log that has just acknowledged holds no data yet. */
  lemma NoDataYet(i: S.Identity, log: seq<Frame>, k: nat)
    requires AckFirst(i, log) && S.FarTalk(log).FarWord? && 0 < k <= |log| && log[k - 1].TcpConnectAck?
    ensures DataOf(log[..k]) == []
  {
    hide S.FarTalk, DataOf;
    FarPrefix(log, k - 1);
    FarNext(log, k - 1);
    FarPrefix(log, k);
    NoDataBefore(i, log, k - 1);
    DataNext(log, k - 1);
  }

  lemma {:induction false} NoDataBefore(i: S.Identity, log: seq<Frame>, k: nat)
    requires AckFirst(i, log) && S.FarTalk(log).FarWord? && k <= |log|
    requires S.FarTalk(log[..k]).FarWord? && S.FarTalk(log[..k]).reply == S.NoReply
    ensures DataOf(log[..k]) == []
  {
    hide S.FarTalk, DataOf;
    NothingRead(log);
    if k > 0 {
      FarPrefix(log, k - 1);
      FarNext(log, k - 1);
      DataNext(log, k - 1);
      NoDataBefore(i, log, k - 1);
    }
  }

  /** The agent reads any other frame of the stream while its record is in place. */
  lemma FarWrites(t: S.Stream, e: S.Env, f: Far, ae: A.Env, heard: bool)
    requires AgentLeg(t, f, ae.wsOpen, heard) && SI.Inv(t, e) && f.kg < |t.sent.toFar| && f.a.Some? && !f.Rec().cleaned
    ensures !t.sent.toFar[f.kg].TcpConnectAck? && !t.sent.toFar[f.kg].ConnectRejected?
    ensures AgentLeg(t, f.(a := Some(A.FromServer(f.Rec(), ae, t.sent.toFar[f.kg])), kg := f.kg + 1), ae.wsOpen, heard)
    ensures A.FromServer(f.Rec(), ae, t.sent.toFar[f.kg]).cleaned <==> Terminal(t.sent.toFar[f.kg])
  {
    hide S.ClientTalk, S.FarTalk, A.Word, DataOf, AckFirst;
    var log, a := t.sent.toFar, f.Rec();
    assert S.FarTalk(log).FarWord?;
    FarPrefix(log, f.kg);
    FarPrefix(log, f.kg + 1);
    FarNext(log, f.kg);
    DataNext(log, f.kg);
    A.FromServerInv(a, ae, log[f.kg]);
    SamePrefix(a.sent, A.FromServer(a, ae, log[f.kg]).sent, f.ka);
  }

  /** The agent reads a frame it has no record for. */
  lemma FarIgnores(t: S.Stream, e: S.Env, f: Far, up: bool, heard: bool)
    requires AgentLeg(t, f, up, heard) && SI.Inv(t, e) && f.kg < |t.sent.toFar| && (f.a.Some? ==> f.Rec().cleaned)
    ensures AgentLeg(t, f.(kg := f.kg + 1), up, heard)
  {
    hide S.ClientTalk, S.FarTalk, A.Word, DataOf, AckFirst;
    var log := t.sent.toFar;
    assert S.FarTalk(log).FarWord?;
    FarPrefix(log, f.kg);
    FarPrefix(log, f.kg + 1);
    FarNext(log, f.kg);
    DataNext(log, f.kg);
  }

  /** Something happens at the agent itself, or a stray abort reaches it. */
  lemma FarLocal(t: S.Stream, f: Far, ae: A.Env, heard: bool, ev: A.Local)
    requires AgentLeg(t, f, ae.wsOpen, heard) && f.a.Some? && A.Possible(f.Rec(), ev) && (ev.Shutdown? ==> !ae.wsOpen)
    ensures AgentLeg(t, f.(a := Some(A.OnLocal(f.Rec(), ae, ev))), ae.wsOpen, heard)
  {
    hide S.FarTalk, A.Word, DataOf, AckFirst;
    A.OnLocalInv(f.Rec(), ae, ev);
    SamePrefix(f.Rec().sent, A.OnLocal(f.Rec(), ae, ev).sent, f.ka);
  }

  lemma FarStray(t: S.Stream, f: Far, ae: A.Env, heard: bool)
    requires AgentLeg(t, f, ae.wsOpen, heard) && f.a.Some? && !f.Rec().cleaned && t.cleaned && f.kg == |t.sent.toFar|
    ensures AgentLeg(t, f.(a := Some(A.FromServer(f.Rec(), ae, TcpAbort))), ae.wsOpen, heard)
  {
    hide S.FarTalk, A.Word, DataOf, AckFirst;
    A.FromServerInv(f.Rec(), ae, TcpAbort);
    SamePrefix(f.Rec().sent, A.FromServer(f.Rec(), ae, TcpAbort).sent, f.ka);
  }

  /** What a client's frame adds for the agent: the reply it settles, data once acknowledged, control frames. */
  lemma FollowsAdds(t: S.Stream, e: S.Env, g: Frame, k: nat)
    requires SI.Inv(t, e) && !t.cleaned && t.ident.peer.Agent? && SE.TcpMode(g)
    requires |t.sent.toFar| <= k < |S.FromClient(t, e, g).sent.toFar|
    ensures t.sent.toFar <= S.FromClient(t, e, g).sent.toFar
    ensures var x := S.FromClient(t, e, g).sent.toFar[k];
            && (x.TcpData? ==> g.TcpData? && e.agentOpen)
            && (x.TcpConnectAck? || x.ConnectRejected? ==> x.reply == S.ReplyTo(t.ident))
  {
    hide S.FarTalk, S.ClientTalk, DataOf, S.FromClient;
    SE.FromClientFar(t, e, g);
  }

  lemma FollowsAcknowledged(t: S.Stream, e: S.Env)
    requires t.awaitingClientAck && t.ident.peer.Agent? && e.agentOpen
    ensures S.FarTalk(S.FromClient(t, e, TcpOpenAck).sent.toFar) == S.FarStep(S.FarTalk(t.sent.toFar), TcpConnectAck(S.ReplyTo(t.ident)))
  {
    hide S.ClientTalk, S.FarTalk, DataOf, SI.Inv;
  }

  /** A frame from the tunnel client, seen from the agent's leg. */
  lemma FarFollows(t: S.Stream, e: S.Env, n: Near, nUp: bool, f: Far, up: bool)
    requires AgentLeg(t, f, up, e.agentOpen) && ClientLeg(t, n, nUp) && SI.Inv(t, e) && t.ident.peer.Agent?
    requires !t.cleaned && n.c.Some? && n.kr < |n.Rec().sent|
    ensures AgentLeg(S.FromClient(t, e, n.Rec().sent[n.kr]), f, up, e.agentOpen)
  {
    hide S.FarTalk, S.ClientTalk, A.Word, C.Word, DataOf, A.Inv, NearOut, AckFirst, S.FromClient;
    var g := n.Rec().sent[n.kr];
    var t' := S.FromClient(t, e, g);
    ClientWordNext(n.Rec().sent, n.kr);
    SI.FromClientInv(t, e, g);
    SE.FromClientTakes(t, e, g);
    assert S.FarTalk(t'.sent.toFar).FarWord?;
    SamePrefix(t.sent.toFar, t'.sent.toFar, f.kg);
    FarPrefix(t'.sent.toFar, |t.sent.toFar|);
    assert t'.sent.toFar[..|t.sent.toFar|] == t.sent.toFar;
    forall k | |t.sent.toFar| <= k < |t'.sent.toFar|
      ensures t'.sent.toFar[k].TcpData? ==> S.FarTalk(t.sent.toFar).reply == S.Acknowledged
      ensures t'.sent.toFar[k].TcpConnectAck? || t'.sent.toFar[k].ConnectRejected? ==> t'.sent.toFar[k].reply == S.ReplyTo(t.ident)
    {
      FollowsAdds(t, e, g, k);
    }
    AckFirstGrows(t.ident, t.sent.toFar, t'.sent.toFar);
    if t.awaitingClientAck && !t'.awaitingClientAck && !t'.cleaned && e.agentOpen { FollowsAcknowledged(t, e); }
  }
}
