/** The promises the relay does not keep, each broken on a concrete run. */
module RelayCounterexample {
  import opened Frames
  import opened Relay
  import opened RelayRuns
  import RI = RelayInvariant
  import RelayControl
  import CM = ClientManager
  import S = RelayStream
  import H = HttpStream
  import Ids = StreamIds
  import TunnelId

  const LIMIT: nat := 1024
  const CLIENT: nat := 1
  const AGENT: nat := 2
  const STREAM: nat := 1
  const HANDLE: nat := 0
  const CFG: Config := Config("127.0.0.1", 10, 10, {6379}, 0, 0, 0, LIMIT)
  const QUIET: Readings := Readings(false, false, [], map[], H.HttpEnv(true, true, true, false, false, true))
  const HIGH: Readings := QUIET.(highs := [true])

  const JOINED: CM.Registry := CM.Registry([1], map[], map[1 := ""], {1}, {2})
  const ONE: Relay := Initial().(reg := JOINED.(openAgents := {}))
  const TWO: Relay := Relay([], map[], 1, Books(map[2 := {}], map[], map[]), JOINED, Sent(map[], map[]))

  const CLIENT_JOINS: Event := ClientJoins(1, "")
  const AGENT_JOINS: Event := AgentJoins(2)
  const REQUEST: ConnectRequest := ConnectRequest(Some(6379), 1, "")
  const CONNECTS: Event := AgentSends(AGENT, NO_STREAM, TcpConnect(REQUEST))

  function Client(f: Frame): Event { ClientSends(CLIENT, STREAM, f) }
  function Agent(f: Frame): Event { AgentSends(AGENT, STREAM, f) }

  /** A client and an agent join, and the agent opens a stream. */
  const JOINS: Script := [(QUIET, CLIENT_JOINS)] + [(QUIET, AGENT_JOINS)]
  const OPENS: Script := JOINS + [(QUIET, CONNECTS)]

  /** One step leads from one state to another. */
  predicate Leads(r: Relay, rd: Readings, ev: Event, r': Relay) {
    Enabled(r, CFG, rd, ev) && Step(r, CFG, rd, ev) == r'
  }

  lemma Extend(script: Script, rd: Readings, ev: Event, r: Relay, r': Relay)
    requires Run(CFG, script) == Some(r) && Leads(r, rd, ev, r')
    ensures Run(CFG, script + [(rd, ev)]) == Some(r')
  {
    hide Step, Enabled;
    assert (script + [(rd, ev)])[..|script|] == script;
  }

  /** No tunnel is named, client 1 is OPEN and alone, and no id is taken. */
  lemma Routes()
    ensures TunnelId.Normalize("") == Some("") && CM.Resolve(JOINED, "") == Some((1, ""))
    ensures CM.LeastLoaded([1], {1}, map[]) == Some(1) && Ids.Allocate({}, TWO.nextId) == Some(1)
  {
    assert [1][..0] == [];
    assert CM.OpenOnes([1], {1}) == [1];
    assert Ids.FirstProbe({}, 1, 0) == Some(0);
  }

  lemma Joins()
    ensures Leads(Initial(), QUIET, CLIENT_JOINS, ONE) && Leads(ONE, QUIET, AGENT_JOINS, TWO)
  {
    hide TunnelId.Normalize;
    Routes();
    assert [] + [1] == [1] && {} + {1} == {1};
  }

  lemma AfterJoins()
    ensures Run(CFG, JOINS) == Some(TWO)
  {
    var first := [(QUIET, CLIENT_JOINS)];
    assert Run(CFG, []) == Some(Initial()) && [] + first == first;
    hide Run, Leads, Initial;
    Joins();
    Extend([], QUIET, CLIENT_JOINS, Initial(), ONE);
    Extend(first, QUIET, AGENT_JOINS, ONE, TWO);
  }

  // ---------------------------------------------------------------------------
  // One stream of the agent
  // ---------------------------------------------------------------------------

  const IDENT: S.Identity := S.Identity(1, 1, S.Agent(2), 6379, 1, "")
  const OPEN: Frame := TcpOpen(true, "127.0.0.1", 6379)
  const ACK: Frame := TcpConnectAck(ConnectReply(Some(6379), 1, ""))
  const CHUNK: Chunk := [42]

  /** The relay with this one stream, registered, counted and owned. */
  function RelayWith(t: S.Stream): Relay {
    Relay([Tcp(t)], map[1 := 0], 2, Books(map[2 := {1}], map[6379 := 1], map[]), JOINED, Sent(map[], map[]))
  }

  /** The stream, not paused: what it has sent to either side, and taken in from the agent. */
  function Record(awaiting: bool, toClient: seq<Frame>, toFar: seq<Frame>, accepted: seq<Chunk>, pendingSends: nat): S.Stream {
    S.Stream(IDENT, false, false, 0, awaiting, S.Flow(false, false, false, false, false, pendingSends),
             S.Socket(false, false, [], 0, false, false, false), S.Sent(toClient, toFar), S.Took(accepted, [], false, false, false, false))
  }

  const ASKED: S.Stream := Record(true, [OPEN], [], [], 0)
  const READY: S.Stream := Record(false, [OPEN], [ACK], [], 0)

  /** The agent's request opens the stream. */
  lemma RelayOpens()
    ensures Connect(TWO, CFG, QUIET, AGENT, REQUEST) == RelayWith(ASKED)
  {
    assert OpenTcp(TWO, CFG, QUIET, 1, 1, S.Agent(2), 6379, 1, "") == Tcp(ASKED) by {
      hide S.ClientTalk, DataOf;
      assert [] + [OPEN] == [OPEN];
    }
    assert Register(TWO, 1, Tcp(ASKED)) == RelayWith(ASKED) by {
      hide OpenTcp;
      assert {} + {1} == {1} && map[2 := {}][2 := {1}] == map[2 := {1}];
    }
    hide OpenTcp, Register, RelayWith, Reject, TunnelId.Normalize, CM.Resolve, Ids.Allocate;
    Routes();
    assert TWO.streams.Keys == {};
  }

  lemma AfterOpens()
    ensures Run(CFG, OPENS) == Some(RelayWith(ASKED))
  {
    hide Run, Connect, RelayWith, Record;
    AfterJoins();
    RelayOpens();
    Extend(JOINS, QUIET, CONNECTS, TWO, RelayWith(ASKED));
  }

  /** What the stream's steps find around it. */
  function Around(highs: seq<bool>): S.Env {
    S.Env(true, true, false, false, highs, LIMIT)
  }

  /** The stream is still this one, and registered. */
  predicate Stays(t: S.Stream) {
    t.ident == IDENT && !t.cleaned && t.cleanups == 0
  }

  /** A frame of the client or of the agent moves the stream, and nothing else. */
  lemma FrameMoves(t: S.Stream, t': S.Stream, rd: Readings, f: Frame)
    requires Stays(t) && Stays(t') && rd in {QUIET, HIGH}
    ensures S.FromClient(t, Around(rd.highs), f) == t' ==> FromClient(RelayWith(t), CFG, rd, CLIENT, STREAM, f) == RelayWith(t')
    ensures S.FromAgent(t, Around(rd.highs), f) == t' && !f.TcpConnect? ==> FromAgent(RelayWith(t), CFG, rd, AGENT, STREAM, f) == RelayWith(t')
  {
    hide S.FromClient, S.FromAgent, Connect, Settled;
    assert EnvOf(RelayWith(t), CFG, rd, IDENT) == Around(rd.highs);
    assert Settled(RelayWith(t).books, IDENT, 0, 0) == RelayWith(t).books by { RI.SettledOnce(RelayWith(t).books, IDENT, 0, 0); }
    assert [Tcp(t)][0 := Tcp(t')] == [Tcp(t')];
  }

  lemma ExtendByFrame(script: Script, rd: Readings, f: Frame, t: S.Stream, t': S.Stream)
    requires Run(CFG, script) == Some(RelayWith(t)) && Stays(t) && Stays(t') && rd in {QUIET, HIGH} && !f.TcpConnect?
    ensures S.FromClient(t, Around(rd.highs), f) == t' ==> Run(CFG, script + [(rd, Client(f))]) == Some(RelayWith(t'))
    ensures S.FromAgent(t, Around(rd.highs), f) == t' ==> Run(CFG, script + [(rd, Agent(f))]) == Some(RelayWith(t'))
  {
    hide Run, S.FromClient, S.FromAgent, FromClient, FromAgent, RelayWith, S.OnLocal, H.OnLocal, Connect, AbortAll,
         AcceptDirect, AcceptWeb, Settle;
    FrameMoves(t, t', rd, f);
    if S.FromClient(t, Around(rd.highs), f) == t' { Extend(script, rd, Client(f), RelayWith(t), RelayWith(t')); }
    if S.FromAgent(t, Around(rd.highs), f) == t' { Extend(script, rd, Agent(f), RelayWith(t), RelayWith(t')); }
  }

  // ---------------------------------------------------------------------------
  // HTTP-mode frames break the books
  // ---------------------------------------------------------------------------

  /** The client's idle timer sends RES_ABORT on the stream. */
  const LEAK: Script := OPENS + [(QUIET, Client(ResAbort))]

  const CROSSED: S.Stream := ASKED.(cleaned := true, took := ASKED.took.(crossed := true, taken := true))
  const LEAKED: Relay := RelayWith(CROSSED).(streams := map[])

  lemma AfterLeak()
    ensures Run(CFG, LEAK) == Some(LEAKED)
  {
    hide Run, S.ClientTalk, DataOf;
    AfterOpens();
    assert map[1 := 0] - {1} == map[];
    Extend(OPENS, QUIET, Client(ResAbort), RelayWith(ASKED), LEAKED);
  }

  /** The books are wrong: one stream is counted on the port, and none is live. */
  lemma CrossModeLeak()
    ensures Run(CFG, LEAK).Some?
    ensures var r := After(CFG, LEAK); At(r.books.agentCount, 6379) == 1 && LiveCount(r.all, 6379, true) == 0 && r.streams == map[]
  {
    hide Run;
    AfterLeak();
    assert LEAKED.all[..0] == [];
  }

  /** So is the agent's set: the id stays in it, and goes on counting against TCP_AGENT_MAX_STREAMS_PER_AGENT. */
  lemma OwnedLeak()
    ensures Run(CFG, LEAK).Some? && AGENT in After(CFG, LEAK).books.agentStreams
    ensures var r := After(CFG, LEAK); OwnedBy(r.books, AGENT) == {STREAM} && !SetExact(r, AGENT) && NewestHit(CFG, LEAK, AGENT)
  {
    hide Run, NewestHit;
    AfterLeak();
    OwnedExactIff(CFG, LEAK, 2);
    assert 1 in OwnedBy(LEAKED.books, 2) && !LiveUnder(LEAKED, 1, 2);
  }

  // ---------------------------------------------------------------------------
  // A misled agent, and a truncated stream
  // ---------------------------------------------------------------------------

  /** The client confirms and pauses the stream, and a chunk of the agent is buffered. */
  const ACKED: Script := OPENS + [(QUIET, Client(TcpOpenAck))]
  const PAUSED: Script := ACKED + [(QUIET, Client(Pause))]
  const BUFFERED: Script := PAUSED + [(QUIET, Agent(TcpData(CHUNK)))]

  /** Then the client resumes while its WebSocket is over high water, or the agent closes. */
  const MISLED: Script := BUFFERED + [(HIGH, Client(Resume))]
  const CUT: Script := BUFFERED + [(QUIET, Agent(TcpClose))]

  /** The stream, paused by the client. */
  function Holding(toFar: seq<Frame>, buffered: seq<Chunk>, bytes: nat): S.Stream {
    var t := Record(false, [OPEN], toFar, buffered, 0);
    t.(flow := t.flow.(peerPausedRead := true), sock := t.sock.(paused := true, buffered := buffered, bufferedBytes := bytes))
  }

  const HALTED: S.Stream := Holding([ACK, Pause], [], 0)
  const FILLED: S.Stream := Holding([ACK, Pause], [CHUNK], 1)

  lemma Confirms()
    ensures S.FromClient(ASKED, Around([]), TcpOpenAck) == READY
  {
    hide S.ClientTalk, S.FarTalk, DataOf, S.SameInputs;
    assert [] + [ACK] == [ACK];
  }

  lemma Pauses()
    ensures S.FromClient(READY, Around([]), Pause) == HALTED
  {
    hide S.ClientTalk, S.FarTalk, DataOf, S.SameInputs;
    assert [ACK] + [Pause] == [ACK, Pause];
  }

  lemma Fills()
    ensures S.FromAgent(HALTED, Around([]), TcpData(CHUNK)) == FILLED
  {
    hide S.ClientTalk, S.FarTalk, DataOf, S.SameInputs;
    assert [] + [CHUNK] == [CHUNK];
  }

  lemma AfterFills()
    ensures Run(CFG, PAUSED) == Some(RelayWith(HALTED)) && Run(CFG, BUFFERED) == Some(RelayWith(FILLED))
  {
    hide Run, S.FromClient, S.FromAgent, RelayWith;
    AfterOpens();
    Confirms();
    Pauses();
    Fills();
    ExtendByFrame(OPENS, QUIET, TcpOpenAck, ASKED, READY);
    ExtendByFrame(ACKED, QUIET, Pause, READY, HALTED);
    ExtendByFrame(PAUSED, QUIET, TcpData(CHUNK), HALTED, FILLED);
  }

  /** The stream once its buffer has been released to a client over high water. */
  function Released(): S.Stream {
    var t := Record(false, [OPEN, TcpData(CHUNK)], [ACK, Pause, Pause, Resume], [CHUNK], 1);
    t.(flow := t.flow.(localPausedForWs := true), sock := t.sock.(paused := true))
  }

  lemma Releases()
    ensures S.FromClient(FILLED, Around([true]), Resume) == Released()
  {
    hide S.ClientTalk, S.FarTalk, DataOf, S.SameInputs;
    var t, e := FILLED, Around([true]);
    var u := t.(flow := t.flow.(peerPausedRead := false), sock := t.sock.(paused := false, buffered := [], bufferedBytes := 0));
    assert [CHUNK][1..] == [];
    var v := S.OnData(u, e, CHUNK, true);
    assert S.EmitAll(u, e, [CHUNK], [true]) == v;
    assert [OPEN] + [TcpData(CHUNK)] == [OPEN, TcpData(CHUNK)];
    assert [ACK, Pause] + [Pause] + [Resume] == [ACK, Pause, Pause, Resume];
  }

  /** The last control frame the agent is sent is RESUME, and the socket is paused: the agent is misled. */
  lemma MisledResume()
    ensures Run(CFG, MISLED) == Some(RelayWith(Released()))
    ensures var t := Released(); t.sent.toFar == [ACK, Pause, Pause, Resume] && t.sock.paused && !t.sock.destroyed
    ensures RelayControl.Misled(CFG, MISLED, HANDLE)
  {
    hide Run, S.FromClient, S.FromAgent, RelayControl.Misled;
    AfterFills();
    Releases();
    ExtendByFrame(BUFFERED, HIGH, Resume, FILLED, Released());
    assert RelayControl.LastControl([ACK, Pause, Pause, Resume]) == Some(Resume);
    RelayControl.AgentIsMisledIff(CFG, MISLED, 0);
  }

  /** The stream once the agent has closed it. */
  function Closed(): S.Stream {
    FILLED.(cleaned := true, cleanups := 1, sent := FILLED.sent.(toClient := [OPEN, TcpClose]), took := FILLED.took.(farEnded := true),
            sock := FILLED.sock.(destroyed := true, agentNotified := true))
  }

  lemma Closes()
    ensures S.FromAgent(FILLED, Around([]), TcpClose) == Closed()
  {
    hide S.ClientTalk, S.FarTalk, DataOf, S.SameInputs;
    assert [OPEN] + [TcpClose] == [OPEN, TcpClose];
  }

  /** The relay once this stream is gone, its books settled. */
  function RelayWithout(t: S.Stream): Relay {
    Relay([Tcp(t)], map[], 2, Books(map[2 := {}], map[6379 := 0], map[]), JOINED, Sent(map[], map[]))
  }

  lemma SettlesGone(t: S.Stream, t': S.Stream)
    requires Stays(t) && t'.ident == IDENT && t'.cleaned && t'.cleanups == 1
    ensures Settle(RelayWith(t), HANDLE, Tcp(t')) == RelayWithout(t')
  {
    hide Settled;
    RI.SettledOnce(RelayWith(t).books, IDENT, 0, 1);
    assert [Tcp(t)][0 := Tcp(t')] == [Tcp(t')] && map[1 := 0] - {1} == map[];
    assert {1} - {1} == {} && map[2 := {1}][2 := {}] == map[2 := {}] && map[6379 := 1][6379 := 0] == map[6379 := 0];
  }

  /** The client is told of an ordinary TCP_CLOSE, and never gets the chunk the agent sent before it. */
  lemma CutShort()
    ensures Run(CFG, CUT).Some? && After(CFG, CUT).all == [Tcp(Closed())]
    ensures var t := Closed(); t.sent.toClient == [OPEN, TcpClose] && t.took.accepted == [CHUNK] && DataOf(t.sent.toClient) == []
  {
    assert DataOf(Closed().sent.toClient) == [] by { assert [OPEN, TcpClose][..1] == [OPEN] && [OPEN][..0] == []; }
    hide Run, S.FromAgent, Settle, DataOf, Connect, AbortAll, AcceptDirect, AcceptWeb, S.OnLocal, H.OnLocal, FromClient;
    AfterFills();
    Closes();
    SettlesGone(FILLED, Closed());
    assert EnvOf(RelayWith(FILLED), CFG, QUIET, IDENT) == Around([]);
    Extend(BUFFERED, QUIET, Agent(TcpClose), RelayWith(FILLED), RelayWithout(Closed()));
  }

  // ---------------------------------------------------------------------------
  // A stream that overflows
  // ---------------------------------------------------------------------------

  /** The client has paused the stream, and a chunk comes that is larger than the whole buffer; then the queued `close` fires. */
  function Overfills(big: Chunk): Script {
    PAUSED + [(QUIET, Agent(TcpData(big)))]
  }

  const CLOSE_FIRES: Event := StreamEvent(HANDLE, S.QueuedClose)

  function Overflow(big: Chunk): Script {
    Overfills(big) + [(QUIET, CLOSE_FIRES)]
  }

  function Overfull(big: Chunk): S.Stream {
    var t := Holding([ACK, Pause, TcpAbort], [], 0);
    t.(sock := t.sock.(destroyed := true, agentNotified := true, closeQueued := true), took := t.took.(accepted := [big]))
  }

  function Overflown(big: Chunk): S.Stream {
    var t := Overfull(big);
    t.(cleaned := true, cleanups := 1, sent := t.sent.(toClient := [OPEN, TcpClose]), sock := t.sock.(closeQueued := false))
  }

  lemma Overflows(big: Chunk)
    requires |big| > LIMIT
    ensures S.FromAgent(HALTED, Around([]), TcpData(big)) == Overfull(big)
    ensures S.Possible(Overfull(big), Around([]), S.QueuedClose) && S.OnLocal(Overfull(big), Around([]), S.QueuedClose) == Overflown(big)
  {
    hide S.ClientTalk, S.FarTalk, DataOf, S.SameInputs, S.OnData;
    assert [] + [big] == [big] && [ACK, Pause] + [TcpAbort] == [ACK, Pause, TcpAbort];
    assert [OPEN] + [TcpClose] == [OPEN, TcpClose];
  }

  /** The agent is told TCP_ABORT, but the client an ordinary TCP_CLOSE, and the chunk that did not fit is lost. */
  lemma OverflowClosed(big: Chunk)
    requires |big| > LIMIT
    ensures Run(CFG, Overflow(big)).Some? && After(CFG, Overflow(big)).all == [Tcp(Overflown(big))]
    ensures var t := Overflown(big);
            t.sent.toClient == [OPEN, TcpClose] && t.sent.toFar == [ACK, Pause, TcpAbort] && t.took.accepted == [big] && !t.took.farEnded
  {
    hide Run, S.FromAgent, S.OnLocal, S.Possible, Settle;
    AfterFills();
    Overflows(big);
    ExtendByFrame(PAUSED, QUIET, TcpData(big), HALTED, Overfull(big));
    SettlesGone(Overfull(big), Overflown(big));
    assert EnvOf(RelayWith(Overfull(big)), CFG, QUIET, IDENT) == Around([]);
    Extend(Overfills(big), QUIET, CLOSE_FIRES, RelayWith(Overfull(big)), RelayWithout(Overflown(big)));
  }

  // ---------------------------------------------------------------------------
  // A slot nobody uses
  // ---------------------------------------------------------------------------

  const HANGS_UP: Event := WebEvent(HANDLE, H.ResponseClose)
  const HEAD: Frame := ResMeta(true, 200)

  /** An HTTP request is answered in full, and its end user hangs up before `finish`. */
  const REQUESTED: Script := JOINS + [(QUIET, WebRequest)]
  const STARTED: Script := REQUESTED + [(QUIET, Client(HEAD))]
  const ANSWERED: Script := STARTED + [(QUIET, Client(ResEnd))]
  const HUNGUP: Script := ANSWERED + [(QUIET, HANGS_UP)]

  function Request(started: bool, ended: bool, calls: seq<H.Call>): H.Http {
    H.Http(1, 1, false, false, false, H.Response(started, ended, false, false, calls), [ReqMeta])
  }

  function RelayServing(w: H.Http): Relay {
    TWO.(all := [Web(w)], streams := map[1 := 0], nextId := 2)
  }

  const WAITING: Relay := RelayServing(Request(false, false, []))
  const BEGUN: Relay := RelayServing(Request(true, false, [H.Head(200)]))
  const DONE: Relay := RelayServing(Request(true, true, [H.Head(200), H.End]))

  lemma Serves()
    ensures Leads(TWO, QUIET, WebRequest, WAITING)
  {
    hide Ids.Allocate, CM.LeastLoaded, TunnelId.Normalize, CM.Resolve, Connect, AbortAll, AcceptDirect, FromClient,
         FromAgent, S.OnLocal, H.OnLocal;
    Routes();
    assert TWO.streams.Keys == {};
    assert [] + [Web(H.Created(1, 1))] == [Web(H.Created(1, 1))];
  }

  lemma Begins()
    ensures Leads(WAITING, QUIET, Client(HEAD), BEGUN)
  {
    hide H.ClientTalk, H.ResponseProgress, H.Abort, AbortAll, AcceptWeb, AcceptDirect, Connect, FromAgent, S.OnLocal,
         S.FromClient;
    assert [] + [H.Head(200)] == [H.Head(200)];
  }

  lemma Answers()
    ensures Leads(BEGUN, QUIET, Client(ResEnd), DONE)
  {
    hide H.ClientTalk, H.ResponseProgress, H.Abort, AbortAll, AcceptWeb, AcceptDirect, Connect, FromAgent, S.OnLocal,
         S.FromClient;
    assert [H.Head(200)] + [H.End] == [H.Head(200), H.End];
  }

  lemma HangsUp()
    ensures Leads(DONE, QUIET, HANGS_UP, DONE)
  {
    hide H.ClientTalk, H.ResponseProgress;
  }

  /** The response is finished and its end user gone, and the stream goes on counting against MAX_CONCURRENT_STREAMS. */
  lemma SlotHeld()
    ensures Run(CFG, HUNGUP) == Some(DONE) && DONE.streams == map[1 := 0]
    ensures DONE.all == [Web(Request(true, true, [H.Head(200), H.End]))]
  {
    hide Run, Leads, Request;
    AfterJoins();
    Serves();
    Begins();
    Answers();
    HangsUp();
    Extend(JOINS, QUIET, WebRequest, TWO, WAITING);
    Extend(REQUESTED, QUIET, Client(HEAD), WAITING, BEGUN);
    Extend(STARTED, QUIET, Client(ResEnd), BEGUN, DONE);
    Extend(ANSWERED, QUIET, HANGS_UP, DONE, DONE);
  }
}
