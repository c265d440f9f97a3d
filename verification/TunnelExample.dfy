/**
 * A run of the whole tunnel on which a chunk travels from a local application to the remote service:
 * the steps the theorems range over are really possible.
 */
module TunnelExample {
  import opened Frames
  import opened Tunnel
  import opened TunnelLegs
  import RC = RelayCounterexample
  import R = Relay
  import S = RelayStream
  import C = TcpClient
  import A = TcpAgent
  import TR = TunnelRuns

  const CALM: Levels := Levels(false, true, false)

  // ---------------------------------------------------------------------------
  // The states of the run
  // ---------------------------------------------------------------------------

  function ClientWith(connected: bool, sent: seq<Frame>, written: seq<Chunk>): C.Stream {
    C.Stream(1, false, C.Flow(false, false, false, 0), C.Socket(connected, false, false), sent, C.Took(written, [], false, false))
  }

  function AgentWith(sent: seq<Frame>, read: seq<Chunk>, pendingSends: nat): A.Stream {
    A.Stream(1, false, A.Flow(false, false, false, pendingSends), A.Socket(false, false), sent, A.Took([], read, false))
  }

  const ISSUE: Issue := Issue(7, 6379, "")
  const WAITING: AgentConn := AgentConn(1, [ISSUE], 1, [A.Pending(7, 6379, "", 1)], 0, 0)
  const ANSWERED: AgentConn := WAITING.(pending := [])

  function Stage(s: S.Stream, near: Near, far: Far, agentIds: map<(nat, nat), nat>, conn: AgentConn): Tunnel {
    Tunnel(RC.RelayWith(s), [Hop(near, far)], if near.c.Some? then map[(1, 1) := 0] else map[], agentIds, {1}, {2}, map[2 := conn])
  }

  const JOINED: Tunnel := Tunnel(RC.ONE, [], map[], map[], {1}, {}, map[])
  const READY: Tunnel := Tunnel(RC.TWO, [], map[], map[], {1}, {2}, map[2 := AgentConn(1, [], 0, [], 0, 0)])
  const ASKING: Tunnel := READY.(agents := map[2 := WAITING.(asked := 0)])

  const OPENING: Tunnel := Stage(RC.ASKED, NoHop().near, NoHop().far, map[], WAITING)
  const OPENED: Tunnel := Stage(RC.ASKED, Near(Some(ClientWith(false, [], [])), 1, 0), NoHop().far, map[], WAITING)
  const CONFIRMING: Tunnel := Stage(RC.ASKED, Near(Some(ClientWith(true, [TcpOpenAck], [])), 1, 0), NoHop().far, map[], WAITING)

  const CONNECTED: Near := Near(Some(ClientWith(true, [TcpOpenAck], [])), 1, 1)
  const CONFIRMED: Tunnel := Stage(RC.READY, CONNECTED, NoHop().far, map[], WAITING)

  const BOUND: map<(nat, nat), nat> := map[(2, 1) := 0]
  const IDLE: Tunnel := Stage(RC.READY, CONNECTED, Far(Some(AgentWith([], [], 0)), 7, 1, 0), BOUND, ANSWERED)

  const READER: A.Stream := AgentWith([TcpData(RC.CHUNK)], [RC.CHUNK], 1)
  const SENDING: Tunnel := Stage(RC.READY, CONNECTED, Far(Some(READER), 7, 1, 0), BOUND, ANSWERED)
  const PASSED: S.Stream := RC.Record(false, [RC.OPEN, TcpData(RC.CHUNK)], [RC.ACK], [RC.CHUNK], 1)
  const PASSING: Tunnel := Stage(PASSED, CONNECTED, Far(Some(READER), 7, 1, 1), BOUND, ANSWERED)
  const WRITTEN: Tunnel := Stage(PASSED, Near(Some(ClientWith(true, [TcpOpenAck], [RC.CHUNK])), 2, 1), Far(Some(READER), 7, 1, 1), BOUND, ANSWERED)

  // ---------------------------------------------------------------------------
  // Its events
  // ---------------------------------------------------------------------------

  const CLIENT_JOINS: Event := RelayEvent(RC.CLIENT_JOINS)
  const AGENT_JOINS: Event := AgentJoins(2, 1)
  const CONNECTS: Event := LocalConnect(2, 7, 6379, "")
  const ASKS: Event := AgentRequest(2)
  const CLIENT_READS: Event := ToClient(RC.HANDLE, true)
  const DIALS: Event := ClientLocal(RC.HANDLE, C.Connected)
  const CONFIRMS: Event := ClientFrame(RC.HANDLE)
  const AGENT_READS: Event := ToAgent(RC.HANDLE, true)
  const DATA: A.Local := A.LocalData(RC.CHUNK)
  const SENDS: Event := AgentLocal(RC.HANDLE, DATA)
  const FORWARDS: Event := AgentFrame(RC.HANDLE)

  const SETUP: seq<Event> := [] + [CLIENT_JOINS] + [AGENT_JOINS] + [CONNECTS] + [ASKS]
  const HANDSHAKE: seq<Event> := SETUP + [CLIENT_READS] + [DIALS] + [CONFIRMS] + [AGENT_READS]
  const TRANSFER: seq<Event> := HANDSHAKE + [SENDS] + [FORWARDS] + [CLIENT_READS]

  function Script(events: seq<Event>): TR.Script {
    seq(|events|, i requires 0 <= i < |events| => (RC.QUIET, CALM, events[i]))
  }

  /** One step leads from a state to another. */
  ghost predicate Leads(t: Tunnel, ev: Event, t': Tunnel) {
    Enabled(t, RC.CFG, RC.QUIET, CALM, ev) && Step(t, RC.CFG, RC.QUIET, CALM, ev) == t'
  }

  lemma Extend(events: seq<Event>, t: Tunnel, ev: Event, t': Tunnel)
    requires TR.Run(RC.CFG, Script(events)) == Some(t) && Leads(t, ev, t')
    ensures TR.Run(RC.CFG, Script(events + [ev])) == Some(t')
  {
    hide Step, Enabled;
    assert Script(events + [ev])[..|events|] == Script(events);
  }

  // ---------------------------------------------------------------------------
  // Its steps
  // ---------------------------------------------------------------------------

  /** One-element lists and maps, spelled the way the steps build them. */
  lemma Lists()
    ensures forall a: Hop, b: Hop :: [a][0 := b] == [b]
    ensures forall f: Frame, g: Frame :: [] + [f] == [f] && [f] + [g] == [f, g]
    ensures forall c: Chunk :: [] + [c] == [c]
    ensures forall k: nat, v: AgentConn, w: AgentConn :: map[k := v][k := w] == map[k := w]
    ensures forall p: A.Pending :: A.Remove([p], 0) == []
  {
  }

  lemma Joins()
    ensures Leads(Initial(), CLIENT_JOINS, JOINED) && Leads(JOINED, AGENT_JOINS, READY) && Leads(READY, CONNECTS, ASKING)
  {
    RC.Joins();
    hide R.Enabled, R.Step, R.Connect;
    assert {} + {1} == {1} && {} + {2} == {2} && [] + [ISSUE] == [ISSUE];
    assert [] + [A.Pending(7, 6379, "", 1)] == [A.Pending(7, 6379, "", 1)];
    Lists();
  }

  lemma Asks()
    ensures Leads(ASKING, ASKS, OPENING)
  {
    RC.RelayOpens();
    hide R.Connect;
    Lists();
    assert Extended([], 1) == [NoHop()];
  }

  lemma ClientOpens()
    ensures ClientReads(OPENING, CALM, RC.HANDLE, true) == OPENED
  {
    hide S.ClientTalk, C.Word, DataOf;
    Lists();
  }

  lemma ClientDials()
    ensures ClientCan(OPENED, CALM, RC.HANDLE, C.Connected) && ClientStep(OPENED, CALM, RC.HANDLE, C.Connected) == CONFIRMING
  {
    hide S.ClientTalk, C.Word, DataOf;
    Lists();
  }

  lemma ClientWrites()
    ensures ClientReads(PASSING, CALM, RC.HANDLE, true) == WRITTEN
  {
    hide S.ClientTalk, C.Word, DataOf;
    Lists();
  }

  lemma AtRelay()
    ensures RelayReadsClient(CONFIRMING, RC.CFG, RC.QUIET, RC.HANDLE) == CONFIRMED
  {
    hide R.FromClient, S.FromClient, S.FromAgent;
    RC.Confirms();
    RC.FrameMoves(RC.ASKED, RC.READY, RC.QUIET, TcpOpenAck);
    Lists();
  }

  lemma Passes()
    ensures S.FromAgent(RC.READY, RC.Around([]), TcpData(RC.CHUNK)) == PASSED
  {
    hide S.ClientTalk, S.FarTalk, DataOf, S.SameInputs;
    assert [RC.OPEN] + [TcpData(RC.CHUNK)] == [RC.OPEN, TcpData(RC.CHUNK)] && [] + [RC.CHUNK] == [RC.CHUNK];
  }

  lemma ThroughRelay()
    ensures RelayReadsAgent(SENDING, RC.CFG, RC.QUIET, RC.HANDLE) == PASSING
  {
    hide R.FromAgent, S.FromAgent;
    Passes();
    RC.FrameMoves(RC.READY, PASSED, RC.QUIET, TcpData(RC.CHUNK));
    Lists();
  }

  lemma AtAgent()
    ensures AgentReads(CONFIRMED, CALM, RC.HANDLE, true) == IDLE
    ensures AgentCan(IDLE, RC.HANDLE, DATA) && AgentStep(IDLE, CALM, RC.HANDLE, DATA) == SENDING
  {
    hide S.ClientTalk, S.FarTalk, A.Word, DataOf;
    Lists();
    assert map[][(2, 1) := 0] == BOUND;
  }

  /** The steps at the ends and at the relay are steps of the tunnel. */
  lemma Handshake()
    ensures Leads(OPENING, CLIENT_READS, OPENED) && Leads(OPENED, DIALS, CONFIRMING) && Leads(CONFIRMING, CONFIRMS, CONFIRMED)
    ensures Leads(CONFIRMED, AGENT_READS, IDLE)
  {
    hide ClientReads, ClientCan, ClientStep, RelayReadsClient, RelayReadsAgent, AgentReads, AgentCan, AgentStep,
         R.Step, R.Enabled, R.Connect;
    ClientOpens();
    ClientDials();
    AtRelay();
    AtAgent();
  }

  lemma Transfer()
    ensures Leads(IDLE, SENDS, SENDING) && Leads(SENDING, FORWARDS, PASSING) && Leads(PASSING, CLIENT_READS, WRITTEN)
  {
    hide ClientReads, ClientCan, ClientStep, RelayReadsClient, RelayReadsAgent, AgentReads, AgentCan, AgentStep,
         R.Step, R.Enabled, R.Connect;
    AtAgent();
    ThroughRelay();
    ClientWrites();
  }

  // ---------------------------------------------------------------------------
  // The whole run
  // ---------------------------------------------------------------------------

  /** A client and an agent join, a local application connects, the handshake completes, and its chunk is delivered. */
  lemma ChunkTravels()
    ensures TR.Run(RC.CFG, Script(TRANSFER)).Some?
    ensures var hop := TR.After(RC.CFG, Script(TRANSFER)).HopAt(RC.HANDLE);
            && hop.far.a.Some? && hop.far.sock == 7 && hop.far.Rec().took.read == [RC.CHUNK]
            && hop.near.c.Some? && hop.near.Rec().took.written == [RC.CHUNK]
  {
    assert TR.Run(RC.CFG, Script([])) == Some(Initial());
    hide TR.Run, Leads, Initial;
    Joins();
    Extend([], Initial(), CLIENT_JOINS, JOINED);
    var e1: seq<Event> := [] + [CLIENT_JOINS];
    Extend(e1, JOINED, AGENT_JOINS, READY);
    Extend(e1 + [AGENT_JOINS], READY, CONNECTS, ASKING);
    Asks();
    Extend(e1 + [AGENT_JOINS] + [CONNECTS], ASKING, ASKS, OPENING);
    Handshake();
    Transfer();
    Extend(SETUP, OPENING, CLIENT_READS, OPENED);
    Extend(SETUP + [CLIENT_READS], OPENED, DIALS, CONFIRMING);
    Extend(SETUP + [CLIENT_READS] + [DIALS], CONFIRMING, CONFIRMS, CONFIRMED);
    Extend(SETUP + [CLIENT_READS] + [DIALS] + [CONFIRMS], CONFIRMED, AGENT_READS, IDLE);
    Extend(HANDSHAKE, IDLE, SENDS, SENDING);
    Extend(HANDSHAKE + [SENDS], SENDING, FORWARDS, PASSING);
    Extend(HANDSHAKE + [SENDS] + [FORWARDS], PASSING, CLIENT_READS, WRITTEN);
  }
}
