# A verified model of the multiplexed tunnel

The repository joins three kinds of programs over WebSockets: local TCP agents, a relay, and tunnel
clients. Many TCP connections and HTTP requests share one WebSocket; each frame carries a stream id.
This project models that protocol in Dafny and proves what it keeps, in every interleaving of frames,
socket events, send callbacks, timers, pauses and disconnects. Check it with
`dafny verify dfyconfig.toml`.

How the files fit together:

- `Frames`: decoded frames, one constructor per frame type, and the payload view of a frame log.
- One TCP stream in the relay (`StreamManager`, `VirtualSocket`, `TcpFlowControl` and the listeners of
  `TcpRouter`): `RelayStream` gives the net effect of every entry point on a record,
  `RelayStreamObject` is the code's own step-by-step form, with destroy emitting `close` and resume
  emitting `data` re-entrantly, proved to have exactly these effects, `RelayStreamInvariant` is what
  every step keeps, `RelayStreamEffects` is how a step changes what was taken in and sent, and
  `RelayAnswers` says for every input, without naming the functions of `RelayStream`, what ends the
  stream, what is forwarded and held back, what the two sides are told, and which reasons to pause come
  and go.
- One HTTP stream in the relay: `HttpStream`, `HttpStreamObject`, what each input makes of it
  (`HttpAnswers`), and what a whole response comes to (`HttpResponses`).
- The whole relay with arbitrary clients and agents: `ClientManager`, `StreamIds`, `Relay` (the state
  machine), their in-place forms `ClientManagerObject` and `RelayObject`, the invariant
  (`RelayInvariant`), what one step does to one stream (`RelayMoves`), which requests are served
  (`RelayAdmission`), its runs (`RelayRuns`, `RelayHistory`, `RelayControl`, `RelayClosings`,
  `RelayWeb`, `RelayTheorems`) and concrete runs on which promises fail (`RelayCounterexample`). The
  object of `RelayObject` holds the records as the objects of `RelayStreamObject` and
  `HttpStreamObject`, so the proof of their re-entrant code carries over to the whole relay.
- The two endpoints: `TcpClient`, `TcpAgent`, their in-place forms `TcpClientObject` and
  `TcpAgentObject`, and what each input makes of a record and a whole run of its pauses in
  `TcpClientAnswers` and `TcpAgentAnswers`.
- The whole tunnel, with the repository's own clients and agents at the ends: `Tunnel` (the state
  machine), `TunnelLegs` (what ties the relay's record of a stream to the record at one end),
  `TunnelInvariant`, `TunnelSteps`, `TunnelDeliveries`, `TunnelRuns`, the end-to-end promises in
  `TunnelTheorems`, what has arrived when a stream ends in `TunnelEndings`, why it ended in
  `TunnelCauses`, and a concrete run in `TunnelExample`.
- Smaller cores: `FrameWriter`, `FrameWriterRuns` and `FrameWriterObject`, `FrameCodec`, `IpAllowlist`
  with `Numerals`, `RouteParser` with `Text` and `TunnelId`.

Conventions. A class is the source's own form of what a module of functions describes; its methods are
proved equal to these functions and carry the promises of one call; the promises over runs are lemmas
about the functions. What an input makes of a record is stated twice, as a function in the order of the
code and, in the modules whose names end in `Answers`, by what can be seen of it; the two are proved to
agree. Every record keeps the log of the frames it has sent and the chunks it has taken in, so the
promises can speak about whole conversations. A stream record is named by its handle, its position in
the list of all records ever created, because callbacks of a record may come after its id was given to
another one. The invariants of the relay and of the tunnel are lists of named clauses (`Clause`,
`Meets`). Functions that look something up in a state (`RecordAt`, `Str`, `Rec`, `FrameAt`) have an
arbitrary value where there is nothing to be found, so that clauses can be stated without a
precondition; every clause says itself when it applies.

Results a reader may not expect:

- The port counters of the relay are exact if and only if no RES_DATA, RES_END or RES_ABORT ever hits a
  live TCP stream of the port (`RelayRuns.AccountingExactIff`). Such a frame takes the HTTP cleanup
  path, which neither destroys the socket nor runs `onCleanup`; `serve/client.js` sends one when a
  stream idles out. `RelayCounterexample.CrossModeLeak` is a run of four steps.
- The agents' sets go wrong by the same frames, and by no others: a set is exact if and only if none hit
  the last stream the agent had under some id (`RelayRuns.OwnedExactIff`,
  `RelayCounterexample.OwnedLeak`). Only then can cleaning up an agent end somebody else's stream.
  With the clients' idle timeout off, counters and sets are exact (`TunnelTheorems.BooksExact`,
  `TunnelTheorems.OwnedSetsExact`).
- The last PAUSE or RESUME a virtual socket sent does not always say whether it is paused: a resume
  that is re-entered by a pause still sends RESUME last. `RelayControl.AgentIsMisledIff` says exactly
  when, over all runs, and `RelayCounterexample.MisledResume` is one. The pause state itself, and the
  order of the bytes, are right all the same.
- A client that is told TCP_CLOSE may have a truncated stream. What the virtual socket holds back when the
  agent closes is dropped (`RelayCounterexample.CutShort`), and a stream whose buffer overflowed is
  closed, not aborted, towards the client (`RelayCounterexample.OverflowClosed`).
  `TunnelEndings.ClosedCompleteIff` says exactly when nothing is missing. On a connection made to the
  relay directly nothing ever is (`TunnelEndings.DirectComplete`), and in the other direction a TCP_CLOSE
  always follows all of the data (`TunnelEndings.DownstreamComplete`).
- An HTTP stream whose end user hangs up between RES_END and `finish` stays registered until its idle
  timer fires or the client goes (`HttpResponses.LingersIff`, `RelayCounterexample.SlotHeld`).

## Model

| member | source | states |
|---|---|---|
| TunnelTheorems.UpstreamBytes | serve/tcp-agent.js:297-323 | In every run, what the tunnel client has written to its local service is a prefix of what the agent has read from its local socket; while the stream lives, what is missing is, in order, the frames on their way to the client, the virtual socket's buffer, and the frames on their way to the relay. |
| TunnelTheorems.DownstreamBytes | src/server/StreamManager.js:467-480 | In every run, from the remote service to the local application: what is written at the agent is a prefix of what is read at the client, and while the stream lives and the agent is reachable nothing is missing but the frames under way. |
| TunnelTheorems.DirectBytes | src/tcp/TcpRouter.js:132-177 | For a connection made to the relay directly: delivered is a prefix of sent in both directions, and while the stream lives the difference is exactly the frames under way. |
| TunnelTheorems.Agreement | src/tcp/TcpClientHandler.js:80-121 | While the WebSocket is OPEN on both sides, a stream live at the client is live at the relay or the relay's terminal frame is on its way; one live at the relay is live at the client, or TCP_OPEN or the client's terminal frame is on its way. |
| TunnelTheorems.OpensNeverCollide | src/tcp/TcpClientHandler.js:120-121 | A TCP_OPEN never overwrites a live record of the client, and a frame finds the record of its own stream or none. |
| TunnelTheorems.RoutingFidelity | serve/tcp-agent.js:495-524 | When an agent binds a local socket to a stream, the relay opened the stream for exactly that socket's request: its request id, its port, and the client registered under the tunnel id it names. |
| TunnelTheorems.RequestsServedOnce | src/tcp/TcpAgentServer.js:163-177 | No two streams of an agent serve the same request, so no run crosses two pending connections. |
| TunnelTheorems.OneReplyPerRequest | src/tcp/TcpAgentServer.js:136-167 | A connect request that is rejected is rejected once and opens no stream. |
| TunnelTheorems.AckBeforeData | src/tcp/TcpAgentServer.js:163-187 | In the relay's frames to an agent, TCP_CONNECT_ACK precedes all TCP_DATA of a stream, there is at most one connect-level reply and it names the stream's own request; nothing is taken in from the agent before it has bound a socket. |
| TunnelTheorems.BooksExact | src/tcp/TcpAgentServer.js:179-186 | With the repository's own clients and agents at the ends, and the clients' idle timeout off (STREAM_IDLE_TIMEOUT_MS=0), each port counter equals the number of live streams on its port. |
| TunnelTheorems.OwnedSetsExact | src/tcp/TcpAgentServer.js:36-47 | Under the same conditions, in every run and with no further hypothesis, an agent's set is exactly the ids of its live streams, and its cleanup ends no TCP stream but its own. |
| TunnelTheorems.NoneLost | src/server/StreamManager.js:178-199 | Under the same conditions, onCleanup has run exactly once for every stream that is gone, and not yet for any that lives. |
| TunnelEndings.UpstreamCompleteIff | src/tcp/VirtualSocket.js:84-96 | End of stream from the local application to the remote service: when the agent's TCP_CLOSE or TCP_ABORT reaches a live stream and the client has later taken the relay's notice of it, the client has written all that the agent has read except exactly what the virtual socket held back when the frame arrived; so all of it if and only if the buffer was empty then. |
| TunnelEndings.ClosedCompleteIff | src/tcp/TcpRouter.js:179-186 | For every TCP_CLOSE told to the client of an agent's stream, whatever caused it: once the client has taken it, it has written all that the agent has read if and only if the TCP_CLOSE answers the agent's own ending and the virtual socket held nothing back. |
| TunnelEndings.DirectComplete | src/tcp/TcpRouter.js:179-196 | End of stream for a connection made to the relay directly: when the client is told TCP_CLOSE or TCP_ABORT, everything taken in from the connection was forwarded before, and the client has written all of it once it has taken that frame. |
| TunnelEndings.DownstreamComplete | src/server/StreamManager.js:482-487 | End of stream in the other direction: if the relay passed a TCP_CLOSE on to the agent, the client had ended the stream, everything the client has read went before it, and the agent has written all of it once it has heard of the ending. |
| TunnelEndings.ClosePassedOn | src/server/StreamManager.js:178-199 | The relay answers a client's TCP_CLOSE with one TCP_CLOSE to the agent exactly when the virtual socket lives and the agent can be reached. |
| TunnelCauses.EndsExactly | src/tcp/TcpClientHandler.js:209-226 | In every run, the tunnel client has sent TCP_CLOSE on a stream exactly if its local service closed the connection in order while the record lived and the WebSocket was OPEN, and TCP_ABORT exactly if that connection failed, was not made in time, or the TCP_OPEN was refused; and the agent (serve/tcp-agent.js:334-357) TCP_CLOSE exactly if the local application closed its connection in order, and TCP_ABORT exactly if it failed. |
| TunnelCauses.CloseMeansClosed | src/server/StreamManager.js:178-221 | In every run, the relay tells an agent TCP_CLOSE only of a stream whose local service closed its connection in order, and tells a client TCP_CLOSE of an agent's stream only if the local application did or a chunk was never forwarded. |
| TunnelCauses.ClientEndingPassedOn | src/server/StreamManager.js:482-533 | When a client's TCP_CLOSE or TCP_ABORT reaches a live agent's stream, the stream is over, the client is told nothing, and the agent, if it is OPEN, is told exactly the rejection an unconfirmed open is due on TCP_ABORT, and then the same ending, unless its virtual socket was gone. |
| TunnelCauses.AgentEndingPassedOn | src/tcp/VirtualSocket.js:84-96 | When an agent's TCP_CLOSE or TCP_ABORT reaches a confirmed stream whose virtual socket lives, the stream is over, the agent is told nothing, and the client, if it is OPEN, is told exactly the same ending, once. |
| TunnelEndings.GoneIsFrozen | src/tcp/VirtualSocket.js:98-124 | Once a stream is gone at the relay, no later step of any run changes its buffer. |
| TunnelTheorems.StraysAreLate | src/tcp/TcpAgentServer.js:71-78 | A "stream not found" abort on its way to an agent never names a stream of that agent that is still live at the relay. |
| TunnelExample.ChunkTravels | serve/tcp-agent.js:190-323 | The runs the theorems speak about exist: on a concrete one, a client and an agent join, a local application connects, the handshake completes, and the chunk it writes is delivered to the remote service. |
| TunnelRuns.RunInv | serve/tcp-agent.js:409-493 | The tunnel's invariant (both legs of every stream, the endpoints' maps, requests and replies) holds after every run in which no id is reused while frames carrying it are under way. |
| TunnelDeliveries.ClientDispatch | src/server/StreamManager.js:313-315 | A frame from a client reaches the stream it was sent on, or no TCP stream of that client. |
| TunnelDeliveries.AgentDispatch | src/tcp/TcpAgentServer.js:71-86 | A frame from an agent reaches the stream it was sent on, or no stream of that agent. |
| TunnelDeliveries.AnsweredOk | serve/tcp-agent.js:503-515 | A connect-level reply takes exactly the connection it names off the waiting list. |
| TunnelSteps.FreeIsOver | src/server/StreamManager.js:22-34 | Once an id is free and none of its frames is under way, the stream that had it is over at both ends as well. |
| RelayRuns.AccountingExactIff | src/server/StreamManager.js:43-73 | In every run of the relay, with arbitrary clients and agents, no port counter is below the number of live streams on its port, and it is equal exactly when no RES_DATA, RES_END or RES_ABORT ever hit a live TCP stream of that port. |
| RelayRuns.OwnedIsNewest | src/tcp/TcpAgentServer.js:179-186 | In every run, an id is in an agent's set exactly when the last record the agent had under it still owes its onCleanup. |
| RelayRuns.OwnedExactIff | src/tcp/TcpAgentServer.js:36-47 | In every run, an agent's set is exactly the ids of its live streams if and only if no RES_DATA, RES_END or RES_ABORT ever hit the last stream this agent had under some id. |
| RelayRuns.AgentCleanupIff | src/tcp/TcpAgentServer.js:36-47 | Cleaning up an agent changes no TCP stream but its own if and only if no id of its set is in use by somebody else's stream. |
| RelayRuns.AgentCleanupEndsItsOwn | src/tcp/TcpAgentServer.js:36-47 | In every run in which no such frame hit the last stream the agent had under some id, its cleanup ends all of its streams and no other TCP stream. |
| RelayRuns.RunLost | src/server/StreamManager.js:43-73 | In every run, a stream is gone without its onCleanup having run exactly when an HTTP-mode frame hit it while it lived. |
| RelayClosings.RunExplained | src/tcp/VirtualSocket.js:115-124 | In every run of the relay, if the client of an agent's stream was told TCP_CLOSE, the agent had ended the stream or a chunk taken in from it was never forwarded; and the virtual socket of a registered stream is destroyed only by such a loss. |
| RelayMoves.StepMoved | src/server/StreamManager.js:302-533 | The whole effect of any step of the relay on any one TCP stream, teardown loops included: a stream moves only by its own frames, events and aborts. |
| RelayMoves.UnaddressedAnswers | src/tcp/TcpAgentServer.js:62-82 | A frame of an agent that is for no stream of its own: TCP_DATA or TCP_CLOSE for an id that is no agent's stream, and a TCP_CONNECT under a stream id, are answered with one abort of that id if the agent is OPEN; anything else changes nothing. |
| RelayMoves.WebStepMoved | src/server/StreamManager.js:302-445 | The whole effect of any step of the relay on any one HTTP stream: it moves by exactly its own frames and events, and when its client goes. |
| RelayAnswers.AnswersExactly | src/server/StreamManager.js:302-533 | For every registered TCP stream and every input (a frame of its client, a frame of its agent, any callback, socket event, timer or disconnect): it ends if and only if one of the listed causes occurs; the client and the far side are told exactly the frames due (payload released, replies, farewells, a PAUSE or RESUME exactly on a change); exactly the right chunks are held back; and each of the four reasons to pause comes with its own input and goes with its own. |
| RelayHistory.LastStep | src/server/StreamManager.js:302-533 | In every run, what the last step was to a stream that it left alive: the effect of exactly the input the step brings to that stream, found by id, WebSocket and owner, or no effect. |
| RelayHistory.HistoryIsKnown | src/tcp/TcpFlowControl.js:3-21 | In every run, what the relay keeps of a live stream to decide its pauses is what has come in: agentPaused says that the last PAUSE or RESUME the agent sent since the acknowledgement was PAUSE, peerPausedRead the same of the client, wsBackpressured that a write found the far side full or unreachable and it has not drained since, localPausedForWs that a chunk found the client's WebSocket over high water and the sends have not completed since. |
| RelayAdmission.ConnectServesIff | src/tcp/TcpAgentServer.js:113-187 | A TCP_CONNECT of a registered agent opens exactly one stream (its agent, port, request id and client, on the books, TCP_OPEN sent) if and only if its target normalizes, its port is allowed, the port's count and the agent's set are below their non-zero limits, the OPEN client it means exists, there are fewer streams than the limit, and an id is free; otherwise an OPEN agent gets one rejection naming the request, and nothing else changes. |
| RelayAdmission.AcceptDirectIff | src/tcp/TcpRouter.js:58-130 | A direct connection opens exactly one stream, to an OPEN client with the least buffered, if and only if its address is allowed, the port is below its non-zero limit, some client is OPEN, there is room and an id is free; otherwise nothing changes. |
| RelayAdmission.AcceptWebIff | src/server/HttpRouter.js:362-433 | An HTTP request opens exactly one stream, to an OPEN client with the least buffered, if and only if some client is OPEN, there is room and an id is free; otherwise nothing changes. |
| RelayAdmission.RequestsServedIff | src/tcp/TcpAgentServer.js:62-69 | The three conditions decide at the relay itself: the step that takes in a TCP_CONNECT on stream 0, a connection or an HTTP request serves it if and only if it can be served. |
| RelayAdmission.RegistryMoves | src/server/ClientManager.js:61-138 | Whatever the step, nobody joins, leaves, opens or closes in the registry but by their own event; a joining client is taken in if and only if it may join; a leaving one frees its place only. |
| RelayAdmission.AgentsMove | src/tcp/TcpAgentServer.js:18-47 | Whatever the step, an agent is registered exactly from its joining, with an empty set, to its leaving. |
| RelayAdmission.AllAdmitted | src/tcp/TcpAgentServer.js:146-149 | In every run, every TCP stream was opened by a request that met every condition at that moment and is the stream of that request; so the port of an agent's stream is always an allowed one. |
| RelayControl.AgentIsMisledIff | src/tcp/VirtualSocket.js:47-66 | In every run, while the agent's WebSocket is OPEN and the virtual socket lives, the last PAUSE or RESUME sent to the agent contradicts the socket's state if and only if the latest resume released a chunk that found the client's WebSocket over high water; a PAUSE sent last is never wrong, and an agent told neither has a socket that is not paused. |
| RelayCounterexample.CrossModeLeak | src/server/StreamManager.js:389-393 | A concrete run of four steps after which a port counts one stream and none is live. |
| RelayCounterexample.OwnedLeak | src/tcp/TcpAgentServer.js:157-161 | The same run leaves the id in the agent's set, where it goes on counting against the agent's limit. |
| RelayCounterexample.MisledResume | src/tcp/VirtualSocket.js:56-66 | A concrete run after which the last control frame the agent was sent is RESUME while its virtual socket is paused. |
| RelayCounterexample.CutShort | src/tcp/VirtualSocket.js:84-89 | A concrete run on which the client is told of an ordinary TCP_CLOSE and never gets the chunk the agent sent before it. |
| RelayCounterexample.OverflowClosed | src/tcp/VirtualSocket.js:72-75 | For any chunk larger than the buffer, a concrete run on which it overflows a paused stream: the agent is told TCP_ABORT, the client an ordinary TCP_CLOSE, and the chunk is lost. |
| RelayCounterexample.SlotHeld | src/server/HttpRouter.js:447-461 | A concrete run on which an HTTP response is finished and its end user hangs up before `finish`, and the stream goes on counting against MAX_CONCURRENT_STREAMS. |
| RelayRuns.RunInv | src/server/StreamManager.js:302-533 | Every reachable state of the relay satisfies its invariant: the id map holds exactly the live records, counters count what still owes its onCleanup, and every stream is within its own invariant. |
| RelayRuns.FromClientLoses | src/server/StreamManager.js:349-445 | Of all frames a client may send on a live TCP stream, exactly RES_DATA, RES_END and RES_ABORT lose its onCleanup. |
| RelayTheorems.OneTermination | src/tcp/VirtualSocket.js:84-124 | Despite re-entrant close, error, destroy and abort: at most one TCP_CLOSE or TCP_ABORT to the client, nothing after it, none once the client ended the stream; at most one to the agent, no data after it, none once the agent ended it; onCleanup, counted call by call, runs at most once, exactly once if the stream was cleaned up and the HTTP path did not take it, and a stream that is gone without it is one an HTTP-mode frame hit. |
| RelayTheorems.EndingIsAnnounced | src/server/StreamManager.js:178-221 | A stream never disappears silently: its client got a terminal frame, or ended it, or is no longer OPEN, or sent an HTTP-mode frame; and likewise its agent. |
| RelayTheorems.DeferredOpen | src/tcp/TcpAgentServer.js:83-86 | Until the client confirms, no agent data is forwarded and the agent has no reply; it never gets two connect-level replies for a stream, nor one after a terminal frame. |
| RelayTheorems.PausingExact | src/tcp/TcpFlowControl.js:3-21 | In every run, a live client that is OPEN has been sent PAUSE last exactly while the agent's last word since the acknowledgement was PAUSE or the far side is backed up, with strictly alternating PAUSE and RESUME; a live socket is paused for reading exactly while the client's last word was PAUSE or its WebSocket is backed up, re-entrant pauses included. Both are stated of the frames and events that came in. |
| RelayTheorems.ChangesAreTold | src/tcp/TcpFlowControl.js:11-21 | In every run, a step that forwards no payload appends to an OPEN client's frames exactly [Pause] when the first of these reasons comes, exactly [Resume] when the last one goes, and nothing otherwise; so an agent's PAUSE on an unpaused stream appends exactly [Pause]. |
| RelayTheorems.ByteOrder | src/tcp/VirtualSocket.js:47-82 | The virtual socket refines an unbounded FIFO: forwarded is a prefix of accepted, forwarded ++ buffered is accepted while the stream lives, the buffer is counted exactly, bounded by MAX_DEST_BUFFER_BYTES, and empty while not paused. |
| RelayTheorems.NoOrphansAndBounds | src/server/ClientManager.js:123-138 | Every live stream is registered, its client is a registered client and its agent a registered agent; streams, clients, and the per-port and per-agent limits are never exceeded, over all three ways of opening a stream. |
| RelayTheorems.LookupsAgree | src/server/ClientManager.js:23-59 | A named lookup yields the unique OPEN client of that name and fails iff there is none; an unnamed one succeeds iff exactly one client is OPEN. |
| RelayStreamInvariant.FromClientInv | src/server/StreamManager.js:302-533 | Any frame from the client, HTTP-mode ones included, keeps the stream's invariant, and takes back nothing already sent or taken in. |
| RelayStreamInvariant.FromAgentInv | src/tcp/TcpAgentServer.js:83-106 | Any frame from the owning agent keeps the stream's invariant, and takes back nothing already sent or taken in. |
| RelayStreamInvariant.OnLocalInv | src/tcp/TcpRouter.js:140-196 | Any callback, socket event, timer or disconnect keeps the stream's invariant, however late it comes. |
| RelayControl.ResumeMisleadsIff | src/tcp/VirtualSocket.js:56-66 | A resume the socket survives sends RESUME last, and leaves the socket paused exactly when a released chunk found the client's WebSocket over its high-water mark. |
| RelayStreamEffects.FromClientFar | src/server/StreamManager.js:467-524 | What each frame from the client adds for the agent: the connect-level reply it settles, the payload it relays, and control frames only. |
| RelayInvariant.StepInv | src/tcp/TcpRouter.js:58-130 | No step of the relay breaks its invariant. |
| StreamIds.AllocateFailsIffFull | src/server/StreamManager.js:22-34 | Allocation throws exactly when every id in 1..2^32-1 is in use. |
| StreamIds.AllocateSucceeds | src/server/StreamManager.js:22-34 | With fewer streams than ids, an unused id is found within one probe more than there are streams. |
| StreamIds.AllocateIsFirst | src/server/StreamManager.js:22-34 | The id returned is the first unused one in the order of the probe from _nextStreamId on. |
| StreamIds.NthDistinct | src/server/StreamManager.js:24-26 | Within one lap the wrapping probe looks at no id twice. |
| StreamIds.NthOnto | src/server/StreamManager.js:24-26 | One lap visits every id. |
| ClientManager.AddClientIndexed | src/server/ClientManager.js:61-95 | Adding a client, stale replacement included, keeps the tunnel-id map in agreement with the clients. |
| ClientManager.ForgetClientIndexed | src/server/ClientManager.js:123-127 | A close event, also a late one of a replaced client, keeps the tunnel-id map in agreement with the clients. |
| ClientManager.AdmittedIff | src/server/ClientManager.js:61-121 | A new WebSocket is taken in if and only if its tunnel id normalizes, there are fewer clients than the limit, and no OPEN client has that id; then it is OPEN under that id, and no other client's id or state changes; otherwise nothing changes. |
| ClientManager.ForgottenOnly | src/server/ClientManager.js:123-127 | Forgetting a client that is no longer OPEN frees exactly its place and changes the answer to no lookup. |
| ClientManager.NamedLookup | src/server/ClientManager.js:31-45 | In agreement, a named lookup yields the unique OPEN client of that name and fails iff there is none. |
| ClientManager.UnnamedLookup | src/server/ClientManager.js:47-58 | In agreement, an unnamed lookup succeeds iff exactly one client is OPEN. |
| ClientManager.LeastLoadedOk | src/server/ClientManager.js:14-21 | getActiveClient fails iff no client is OPEN, and otherwise returns an OPEN one with the least buffered. |
| ClientManager.LeastLoadedFirst | src/server/ClientManager.js:14-21 | Of several OPEN clients with the least buffered, the one that joined first is returned. |
| HttpStream.ResponseIsWellFormed | src/server/StreamManager.js:320-445 | For every sequence of RES_* frames, aborts and response events, the calls on the response are one head, then body chunks, then one end; PAUSE and RESUME alternate and match responsePaused; and once the stream is gone the response is finished or destroyed. |
| HttpResponses.BodiesCarried | src/server/StreamManager.js:349-388 | In every run, the chunks written to the response are, in order and each whole, a prefix of the RES_DATA payloads that reached the stream before its response ended; they are all of them exactly if none of these payloads came before the response had its head, or met a response buffer over its limit, or made the write throw; so in particular if RES_END ended the response. |
| HttpResponses.LingersIff | src/server/HttpRouter.js:447-461 | In every run, a record whose response is finished or destroyed is still registered exactly when RES_END ended the response and no `finish`, request failure, timeout, disconnect of the client, or further RES_META or RES_ABORT has come since; an end user who hangs up first does not free it. |
| HttpResponses.EndedDropsIff | src/server/HttpRouter.js:435-461 | Of all frames and events, exactly these drop a stream whose response RES_END has ended. |
| HttpAnswers.AnswersExactly | src/server/HttpRouter.js:435-461 | For every live record and every frame and event: it is dropped if and only if the response finished, the client aborted it, its frame does not fit, or somebody gave up (an end user who hangs up before RES_END, a failed request or writer, the idle timer, the client gone); the client is told exactly this (one REQ_ABORT, one REQ_END when the request is passed on, PAUSE or RESUME exactly on a change), and the response exactly that (head, body, end, or the relay's own error). |
| HttpAnswers.PausesExactly | src/server/StreamManager.js:349-388 | In every run, while the record lives and its client is OPEN, the client has been told PAUSE last exactly if the response has fallen behind and not drained since, and REQ_END exactly if the request has been passed on whole. |
| RelayWeb.RecordIsRun | src/server/StreamManager.js:302-318 | In every run of the relay, an HTTP record is what its own frames and events, in their order, make of a newly created one, in surroundings whose WebSocket never reopens; so every theorem about one record's scripts holds of every record of every run. |
| RelayWeb.ResponsesInOrder | src/server/StreamManager.js:320-445 | In every run of the relay, for every HTTP stream: its response is called in order and answered or hung up on by the time it is gone; and while it lives and its client is OPEN, the client was told PAUSE last exactly if the response is behind, and REQ_END exactly if the request has been passed on. |
| HttpStream.FromClientInv | src/server/StreamManager.js:320-445 | Any frame of the client keeps the calls on the response in the order head, body, end, and PAUSE and RESUME alternating. |
| HttpStream.OnLocalInv | src/server/HttpRouter.js:435-461 | Any event of the request, the response or the request writer keeps the same two orders. What each event ends and sends is `HttpAnswers.AnswersExactly`. |
| TcpClient.FromServerInv | src/tcp/TcpClientHandler.js:229-264 | Any frame of the relay keeps the client's record: one TCP_OPEN_ACK before data, alternating PAUSE and RESUME, at most one terminal frame and nothing after it. |
| TcpClient.OnLocalInv | src/tcp/TcpClientHandler.js:133-226 | Any event of the local socket, send callback or timer keeps the record's invariant, one terminal frame at most included. Which frame each event sends is `TcpClientAnswers.AnswersExactly`. |
| TcpClientAnswers.AnswersExactly | src/tcp/TcpClientHandler.js:133-264 | For every live record of the client and every frame and event: it ends exactly for the listed causes; a service that closes in order is told as exactly [TcpClose], one that fails or is not reached in time as exactly [TcpAbort]; otherwise the relay is sent exactly the acknowledgement, the chunk, or the change of pause due; and the payload is written and read exactly. |
| TcpClientAnswers.OpensExactly | src/tcp/TcpClientHandler.js:80-120 | A TCP_OPEN is taken exactly if it is well formed and admitted; a refused one is answered with exactly one TCP_ABORT and leaves no record. |
| TcpClientAnswers.PausesExactly | src/tcp/TcpClientHandler.js:229-313 | In every run of a record, the local socket is paused exactly while the relay's last word was PAUSE or the WebSocket has been full since; and the relay has been sent TCP_OPEN_ACK exactly if the service was reached, and PAUSE last exactly while the local socket is full. |
| TcpAgent.FromServerInv | serve/tcp-agent.js:425-487 | Any frame of the relay keeps the agent's record: alternating PAUSE and RESUME, at most one terminal frame and nothing after it, and the socket paused exactly for its two reasons. |
| TcpAgent.OnLocalInv | serve/tcp-agent.js:297-357 | Any event of the local socket, send callback or timer keeps the record's invariant, one terminal frame at most included. Which frame each event sends is `TcpAgentAnswers.AnswersExactly`. |
| TcpAgentAnswers.AnswersExactly | serve/tcp-agent.js:297-487 | The same for the agent's entry: a local connection that closes in order is told as exactly [TcpClose], one that fails as exactly [TcpAbort], and nothing else ends it aloud; every other input sends exactly the chunk or the change of pause due, and writes exactly the payload it brings. |
| TcpAgentAnswers.PausesExactly | serve/tcp-agent.js:297-487 | In every run of an entry with its WebSocket OPEN, the local socket is paused exactly while the relay's last word was PAUSE or the WebSocket has been full since, and the relay has been sent PAUSE last exactly while the local socket is full. |
| TcpAgent.RequestIdsCycle | serve/tcp-agent.js:184-188 | Request ids go round the safe integers, from 1 on. |
| TcpAgent.RepliesFind | serve/tcp-agent.js:495-524 | A reply under a usable request id answers exactly the waiting connection that has it, whatever port or target it names; one without answers the connections for its port, and of these for its target if it names one. |
| TcpAgent.RemoveTakesOne | serve/tcp-agent.js:513-516 | Taking a connection off the waiting list takes exactly that one, and keeps the order of the rest. |
| TcpAgent.RemoveSockIsFirst | serve/tcp-agent.js:197-200 | A socket that fails while waiting takes its first entry off the list, if it has one, and no other; the order of the rest is kept. |
| RelayStreamObject.TcpStream.HandleClientFrame | src/server/StreamManager.js:319-533 | The step-by-step code, events re-entered, has exactly the net effect RelayStream.FromClient. On a registered stream in order it answers exactly as `RelayAnswers` lists (contract `Does`): what ends, what each side is told, what is held back, which reason to pause moves. |
| RelayStreamObject.TcpStream.HandleAgentFrame | src/tcp/TcpAgentServer.js:83-106 | The step-by-step code for a frame of the agent, events re-entered, has exactly the net effect RelayStream.FromAgent. On a registered stream in order it answers exactly as `RelayAnswers` lists (contract `Does`): what ends, what each side is told, what is held back, which reason to pause moves. |
| RelayStreamObject.TcpStream.HandleLocal | src/tcp/TcpRouter.js:140-196 | The listeners, send callbacks and timers have exactly the net effect RelayStream.OnLocal. On a registered stream in order it answers exactly as `RelayAnswers` lists (contract `Does`): what ends, what each side is told, what is held back, which reason to pause moves. |
| RelayStreamObject.TcpStream.ResumeReading | src/tcp/VirtualSocket.js:56-66 | Releasing the buffer chunk by chunk through a listener that may pause again has exactly the net effect RelayStream.ResumeSocket. |
| RelayStreamObject.TcpStream.Destroy | src/tcp/VirtualSocket.js:105-113 | destroy, the `close` it emits and the cleanup that listener runs settle in one termination. |
| RelayStreamObject.TcpStream.AbortTcpStream | src/server/StreamManager.js:201-221 | Aborting the virtual socket, telling the client once and cleaning up has exactly the net effect RelayStream.Abort. |
| RelayStreamObject.TcpStream.PushFromAgent | src/tcp/VirtualSocket.js:69-82 | An agent chunk is forwarded, buffered, or, when the buffer would overflow, aborts the stream. |
| RelayObject.RelayServer.AllocateStreamId | src/server/StreamManager.js:22-34 | The probing loop returns the first unused id from _nextStreamId on and moves the counter past it; it throws iff every id is in use. |
| RelayObject.RelayServer.HandleTcpConnect | src/tcp/TcpAgentServer.js:113-187 | A connect request changes the relay exactly as Relay.Connect: one rejection, or one registered, counted and owned stream. In a state within the invariant: served if and only if every condition holds, the port being allowed among them, and rejected once otherwise (contract `Servable`, `Serves`, `Rejects`). |
| RelayObject.RelayServer.HandleConnection | src/tcp/TcpRouter.js:58-130 | A direct connection changes the relay exactly as Relay.AcceptDirect. In a state within the invariant: one stream if and only if every condition holds, and no change otherwise. |
| RelayObject.RelayServer.ProxyHttpRequest | src/server/HttpRouter.js:362-433 | An HTTP request changes the relay exactly as Relay.AcceptWeb. In a state within the invariant: one stream if and only if every condition holds, and no change otherwise. |
| RelayObject.RelayServer.HandleClientFrame | src/server/StreamManager.js:302-318 | The relay with its records as objects: the lookup, the record's own re-entrant code and the settling of map and books together are exactly the relay step Relay.FromClient. Whatever the frame, the invariant is kept, no other record moves, the id leaves the map exactly if the stream ended, the books stay unless it did, and a frame for an unknown id or another WebSocket changes nothing. |
| RelayObject.RelayServer.HandleAgentFrame | src/tcp/TcpAgentServer.js:49-111 | The same for a frame of an agent: lookup, re-entrant stream code and settling together are exactly Relay.FromAgent; the invariant is kept, no other record moves, map and books change only if the stream ended, and a frame for a stream that is not the agent's own changes nothing but, at most, adds one stray abort. |
| RelayObject.RelayServer.HandleEvent | src/tcp/TcpRouter.js:140-196 | A callback, socket event or timer that reaches a record, however late, moves the relay exactly by the step Relay.StreamEvent or Relay.WebEvent, and keeps its invariant. |
| RelayObject.RelayServer.SettleManagers | src/server/StreamManager.js:178-199 | After a record's step, the id map has lost the id exactly if the record was cleaned up in it, and the books are settled once per call of onCleanup. |
| RelayObject.RelayServer.CleanupClient | src/server/ClientManager.js:123-138 | Forgetting a client aborts all its streams, settling the books of each. |
| RelayObject.RelayServer.CleanupAgent | src/tcp/TcpAgentServer.js:36-47 | Forgetting an agent aborts all streams it owns, telling their clients. |
| ClientManagerObject.ClientManager.GetActiveClient | src/server/ClientManager.js:14-21 | The scan returns an OPEN client with the least buffered, and none iff no client is OPEN. |
| ClientManagerObject.ClientManager.GetClientByTunnelId | src/server/ClientManager.js:23-29 | For any string: it throws exactly on one that does not normalize; otherwise it finds an OPEN registered client of the normalized id, and null means that the id is absent or nobody OPEN has it. |
| ClientManagerObject.ClientManager.ResolveTargetClient | src/server/ClientManager.js:31-59 | The code computes ClientManager.Resolve, about which the lookup lemmas are. |
| ClientManagerObject.ClientManager.AddClient | src/server/ClientManager.js:61-121 | The code computes ClientManager.AddClient and answers true iff the client is admitted. |
| HttpStreamObject.HttpState.HandleClientFrame | src/server/StreamManager.js:320-445 | Whatever frame comes, nothing called on the response is taken back and nothing is added but this frame's head, body or end, or the relay's own error; at most one frame goes to the client; a record in order stays in order; and if the stream is gone afterwards, its end user has been answered or hung up on. (The method equals HttpStream.FromClient.) A live record in order answers exactly as `HttpAnswers.Answers` lists. |
| HttpStreamObject.HttpState.HandleLocal | src/server/HttpRouter.js:435-461 | The listeners and timers: a live record in order answers exactly as `HttpAnswers.Answers` lists (an end user who hangs up before RES_END, a failed request and the idle timer each drop it with exactly one REQ_ABORT); nothing is added to the response but its end or the relay's own error; a record that is gone says nothing. (The method equals HttpStream.OnLocal.) |
| HttpStreamObject.HttpState.AbortStream | src/server/StreamManager.js:75-121 | After an abort the stream is gone and nobody is left waiting: the response is finished or destroyed, with a 502 if no head was sent; the client gets one REQ_ABORT exactly if it was to be told, is OPEN and had none; aborting again changes nothing; order is kept. (The method equals HttpStream.Abort.) |
| TcpClientObject.TcpState.HandleServerFrame | src/tcp/TcpClientHandler.js:278-313 | A payload is written to the local socket once and whole unless the socket is gone; the relay is answered with one PAUSE at most; a terminal frame ends the stream, destroys the socket and is not answered, and no other TCP frame ends it; the record's invariant (one acknowledgement before data, alternating PAUSE and RESUME, one terminal frame) is kept. (The method equals TcpClient.FromServer.) A live record in order answers exactly as `TcpClientAnswers.Answers` lists. |
| TcpClientObject.TcpState.HandleLocal | src/tcp/TcpClientHandler.js:133-226 | A local event writes nothing locally and sends the relay one frame at most, a chunk only if it was read just then; a stream that is gone sends nothing any more; the record's invariant is kept. (The method equals TcpClient.OnLocal.) A live record in order answers exactly as `TcpClientAnswers.Answers` lists: [TcpClose] on a local close, [TcpAbort] on a local error or a timeout before connecting. |
| TcpClientObject.TcpClientHandler.HandleTcpOpen | src/tcp/TcpClientHandler.js:80-120 | A TCP_OPEN is admitted exactly when it is well formed, its host is allowed and the Map, which HTTP requests share, is below the limit; then its record takes the id, also from an HTTP record that had it, and the Map stays within the limit; otherwise the Map is unchanged and the answer is one abort. |
| TcpClientObject.TcpClientHandler.HandleReqMeta | serve/client.js:328-341 | An HTTP request enters the Map exactly when there is room and its id is not taken, by either kind. |
| TcpClientObject.TcpClientHandler.HandleServerFrame | src/tcp/TcpClientHandler.js:278-313 | A frame steps the record under its id, which leaves the map exactly when it is cleaned up; a frame without a record changes nothing. |
| TcpClientObject.TcpClientHandler.CleanupTcpStreams | src/tcp/TcpClientHandler.js:266-271 | When the WebSocket closes, every record is cleaned up once and the map is empty. |
| TcpAgentObject.StreamEntry.HandleServerFrame | serve/tcp-agent.js:425-487 | A payload is written to the local socket once and whole; the relay is answered with one PAUSE at most; a terminal frame ends the entry, destroys the socket and is not answered, and no other frame ends it; the entry's invariant (alternating PAUSE and RESUME, one terminal frame, the socket paused exactly for its reasons) is kept. (The method equals TcpAgent.FromServer.) A live entry in order answers exactly as `TcpAgentAnswers.Answers` lists. |
| TcpAgentObject.StreamEntry.HandleLocal | serve/tcp-agent.js:297-357 | A local event writes nothing locally and sends the relay one frame at most, a chunk only if it was read just then; an entry that is finished sends nothing any more; the entry's invariant is kept. (The method equals TcpAgent.OnLocal.) A live entry in order answers exactly as `TcpAgentAnswers.Answers` lists. |
| TcpAgentObject.AgentConnection.HandleServerFrame | serve/tcp-agent.js:409-493 | An acknowledgement moves the connection it answers from the waiting list into streamedSockets, a rejection takes it off the list, any other frame steps the entry under its id, which is deleted exactly when it is finished. |
| TcpAgentObject.AgentConnection.CleanupAll | serve/tcp-agent.js:377-394 | When the WebSocket closes, nothing waits any more and every entry is finished once. |
| TcpAgentObject.PendingList.FindIndex | serve/tcp-agent.js:503-511 | The search returns the first waiting connection the reply answers: by request id if the reply has one, else by port and target. |
| TcpAgentObject.PendingList.Settle | serve/tcp-agent.js:513-516 | A reply removes the connection it finds from the waiting list and no other. |
| TcpAgentObject.PendingList.LocalConnection | serve/tcp-agent.js:215-233 | A local connection takes the next request id, waits, and asks with that id, its port and its target. |
| TcpAgentObject.PendingList.RemovePending | serve/tcp-agent.js:197-200 | A socket that fails while waiting is taken off the list. |
| FrameWriter.FramesRefineSplit | src/server/WsFrameWriter.js:48-133 | For every schedule of writes, pauses, resumes, drains and destroy: the frames of a write are a prefix of the fixed split of its chunk and all of it if the callback succeeds, each callback is called at most once, and at most one job is parked or suspended, holding exactly the bytes that are left; every write is answered if and only if no job is parked or suspended, and a job is parked only while the peer is paused and the writer not destroyed. |
| FrameWriterRuns.TurnByTurn | src/server/WsFrameWriter.js:62-111 | In every schedule, a step that finds the peer unpaused and the writer not destroyed sends the frames of its job, in order, for exactly as long as the turns find the WebSocket OPEN, its buffer not high and the send succeeding; the first turn back from waitDrain is not held up by the buffer; the turn that ends it suspends exactly the rest on a high buffer and fails the write otherwise; if none does, the write succeeds. |
| FrameWriterRuns.PausedIsSilent | src/server/WsFrameWriter.js:90-93 | In every schedule, no step after which the last SetPeerPaused asked for a pause, or the writer is destroyed, adds a frame to any write. |
| FrameWriterRuns.PausedParks | src/server/WsFrameWriter.js:48-60 | A write while the peer is paused leaves its job parked with the whole chunk and unanswered; a sender that comes back from waiting parks exactly the rest. |
| FrameWriterRuns.UnpausedSends | src/server/WsFrameWriter.js:113-121 | Unpausing while the WebSocket is OPEN, not high, and its sends succeed empties the parked job: the write has exactly its split sent and is answered with success. |
| FrameWriterRuns.DestroyedAnswers | src/server/WsFrameWriter.js:123-133 | Destroying answers a parked write with an error, a later write is answered so at once, and a failed wait answers the suspended one so. |
| FrameWriter.SplitJoins | src/server/WsFrameWriter.js:95-104 | The split loses nothing: joined, its frames are the chunk (and none is empty or over the limit, by Split's own contract). |
| FrameWriterObject.WsFrameWriter.SendChunk | src/server/WsFrameWriter.js:62-111 | The loop over an offset, suspended at waitDrain and parked at a pause, computes FrameWriter.Send; what remains of the chunk is its termination measure. That it stops at a pause, and what it parks, is `FrameWriterRuns.PausedIsSilent` and `PausedParks`. |
| FrameWriterObject.WsFrameWriter.Write | src/server/WsFrameWriter.js:48-60 | A write on a destroyed writer is answered with an error; while the peer is paused the chunk is parked whole and nothing is sent; otherwise the loop sends frames for as long as its turns go, and settles what is left. |
| FrameWriterObject.WsFrameWriter.SetPeerPaused | src/server/WsFrameWriter.js:113-121 | Unpausing takes the parked job up again. The loop then runs on the whole parked job (contract `Loops`). |
| FrameWriterObject.WsFrameWriter.Destroy | src/server/WsFrameWriter.js:123-133 | Destroying answers a parked write with an error, once. |
| FrameCodec.ParseWire | src/shared/protocol.js:33-65 | Parsing a built frame gives the type byte, the id modulo 2^32 and the payload back. |
| FrameCodec.WireParse | src/shared/protocol.js:48-65 | Rebuilding any accepted buffer reproduces it byte for byte. |
| FrameCodec.WireInjective | src/shared/protocol.js:33-46 | Two frames have the same bytes exactly when they agree on type, payload and id modulo 2^32. |
| FrameCodec.BuildFrame | src/shared/protocol.js:33-46 | The buffer written byte by byte holds version, type, the big-endian id and the payload. |
| FrameCodec.ParseFrame | src/shared/protocol.js:48-65 | Short buffers and other versions are refused, everything else is taken apart at the same places. |
| IpAllowlist.AllowedIff | src/shared/ipAllowlist.js:9-13 | An address is let in exactly when the list is empty or an entry covers it: the same spelling, or an address and a spelled prefix length of at most 32 whose block it lies in. |
| IpAllowlist.ParseIntIff | src/shared/ipAllowlist.js:33 | A prefix length reads as a number exactly if it spells one: white space, a sign or none, the digits of the value, and then anything that is no digit. |
| IpAllowlist.NormalizeIpIff | src/shared/ipAllowlist.js:24-28 | The prefix of an IPv4-mapped address is dropped, and every other address is left as it is. |
| IpAllowlist.MaskedIsBlock | src/shared/ipAllowlist.js:30-40 | The shift-and-mask test is membership in the aligned block of 2^(32-bits) addresses (section 3.1 of RFC 4632). |
| IpAllowlist.AssembleIsPositional | src/shared/ipAllowlist.js:42-48 | The word put together by shifts and ors is the positional value of the octets. |
| IpAllowlist.DottedAddress | src/shared/ipAllowlist.js:42-48 | The dotted decimal spelling of any four octets is read back as these octets and as the address they make up. |
| Numerals.OctetInRange | src/shared/ipAllowlist.js:43-44 | For every spelling `Number` accepts (blank, decimal with exponent, hexadecimal, octal, binary) of a value without a sign, the part passes the range check exactly when the exact value is at most 255 + 2^-46, which is where its double leaves 255. |
| Numerals.OctetTruncates | src/shared/ipAllowlist.js:47 | The octet the shifts then use is the integer part of the exact value, unless the value, below 2^k, is within 2^(k-54) below a whole number, which is as near as its double may come. |
| Numerals.NegativeOctet | src/shared/ipAllowlist.js:43-44 | A part with a minus sign is out of range, unless its value is so small that its double is minus zero, which counts as 0. |
| Numerals.NumberIff | src/shared/ipAllowlist.js:43 | A part of an address reads as a number exactly if, up to white space, it is empty (zero), a whole number after 0x, 0o or 0b, or decimal digits with an optional sign and an optional signed exponent; and the value is the exact one. |
| Numerals.DigitInIs | src/shared/ipAllowlist.js:43 | The digits of these bases are the ten decimal ones and a to f in either case, and nothing else. |
| Numerals.DigitsAreNumber | src/shared/ipAllowlist.js:43 | A part of decimal digits, leading zeros included, is its decimal value. |
| IpAllowlist.ShorterIsLarger | src/shared/ipAllowlist.js:38-39 | Shortening a prefix only enlarges the accepted set. |
| IpAllowlist.MappedSpelling | src/shared/ipAllowlist.js:24-28 | The IPv4-mapped spelling of an address (section 2.5.5.2 of RFC 4291) is treated as the address itself. |
| IpAllowlist.ValidEntryIff | src/shared/ipAllowlist.js:15-22 | The configuration check accepts an entry without a slash exactly if it is an address, and one with a slash exactly if there is an address it covers; an accepted entry covers at least the address it names. |
| RouteParser.RoutesRoundTrip | src/shared/port-parser.js:75-114 | Rendering any valid list of routes with distinct local ports and parsing it gives the same list. |
| RouteParser.AcceptedRoutes | src/shared/port-parser.js:75-114 | Whatever is accepted has ports in 1..65535, grammatical tunnel ids and distinct local ports, and re-rendering and re-parsing it is a fixpoint. |
| RouteParser.PortsRoundTrip | src/shared/port-parser.js:22-57 | Rendering any list of distinct ports in 1..65535 and parsing it gives the same list. |
| RouteParser.AcceptedPorts | src/shared/port-parser.js:22-57 | Whatever port list is accepted is distinct and in range, and a fixpoint. |
| RouteParser.ParseListIff | src/shared/port-parser.js:83-111 | A list is accepted exactly when every entry parses and no key comes twice. |
| RouteParser.ParseEntryIff | src/shared/port-parser.js:83-111 | An entry parses to a route if and only if, up to white space, it spells that route: a port, the first "=", and a target. |
| RouteParser.ParseTargetIff | src/shared/port-parser.js:83-111 | A target parses to a tunnel id and port if and only if, up to white space, it spells a tunnel id, the last colon, and a port. |
| RouteParser.ParsePortIff | src/shared/port-parser.js:59-73 | A text parses to a port if and only if, up to white space, it is decimal digits of a value in 1..65535. |
| RouteParser.ParseAgentRoutes | src/shared/port-parser.js:75-114 | The parsing loop with its seen-set accepts and returns exactly RouteParser.ParseRoutes. |
| RouteParser.ParseAgentPorts | src/shared/port-parser.js:22-57 | The parsing loop accepts and returns exactly RouteParser.ParsePorts. |
| TunnelId.NormalizeIdempotent | src/shared/tunnel-id.js:3-18 | Normalizing a tunnel id twice changes nothing. |
| TunnelId.NormalizeIff | src/shared/tunnel-id.js:3-18 | A normalized id is the value without the white space at its ends, and is empty or grammatical; a value is rejected exactly if that core is neither. |
| TunnelId.TrimIs | src/shared/tunnel-id.js:3-18 | Trimming takes all the white space at both ends and nothing else. |
| TunnelId.IsTunnelIdIff | src/shared/tunnel-id.js:1 | A tunnel id is a letter or digit followed by at most 63 letters, digits, dots, underscores and hyphens. |
| TunnelId.IsSpaceIff | src/shared/tunnel-id.js:4 | What is trimmed is white space and line terminators (sections 12.2 and 12.3 of ECMA-262), and nothing else. |

## Left out

Members whose contract is weaker than a reader may expect:

- TunnelTheorems.UpstreamBytes: only for runs in which a stream id is given out again when none of its frames is under way (`Tunnel.Reusable`); a run must pass 2^32 - 1 other streams before this matters. The same holds for every theorem of `TunnelTheorems`.
- TunnelTheorems.UpstreamBytes: says nothing about draining; resume callbacks test a `bufferedAmount` that all streams share, so unconditional progress does not hold.
- TunnelTheorems.DownstreamBytes: the exact balance needs the agent's WebSocket OPEN at the relay, which drops payload otherwise.
- TunnelTheorems.RoutingFidelity: assumes that an agent's request counter does not wrap at 2^53 - 1 within one connection.
- TunnelTheorems.OneReplyPerRequest: at most one reply, not exactly one; if the tunnel client drops while the open is pending, the agent gets a stream-level abort only.
- TunnelTheorems.BooksExact: with the clients' idle timeout on, which is the default, a client sends RES_ABORT on an idle TCP stream and the books are only as `RelayRuns.AccountingExactIff` and `RelayRuns.OwnedExactIff` say.
- TunnelEndings.DirectComplete: of the chunks the relay takes in while the stream lives; what the external socket emits after its stream is gone is ignored by the code and not counted here.
- TunnelTheorems.Agreement: between relay and tunnel client. Between agent and relay only the safety half is claimed (`AckBeforeData`, `StraysAreLate`): an acknowledgement for a local socket that has closed is ignored.
- RelayTheorems.DeferredOpen: per stream; that the acknowledgement precedes the data needs the repository's own client and is `TunnelTheorems.AckBeforeData`.
- HttpStream.ResponseIsWellFormed: for streams whose REQ_META was sent. A failed `createStream` removes its record without cleaning it up and leaves its idle timer armed.
- RelayObject.RelayServer.HandleTcpConnect: requires the agent to be registered, as the code assumes; a frame of an agent already cleaned up is not modelled.
- RelayObject.RelayServer.SettleManagers: the managers learn of a record's calls of onCleanup when its step is over, and play them out then; in the code they come in the middle of it, where nothing reads the books.
- RelayObject.RelayServer.CleanupClient: streams are aborted oldest record first; the code follows the insertion order of a Map, in which an id that was reused keeps no trace of its first use.
- Numerals.OctetInRange: every numeral is rounded exactly; of one with more than 20 significant digits, ECMAScript lets an implementation change the digits after the 20th.
- FrameCodec.ParseFrame: takes a byte buffer; the conversions of ArrayBuffers and buffer lists are not modelled.

What the model does not have:

- Real sockets, the WebSocket library, TLS and HTTP parsing. A WebSocket is the log of what was sent on it plus a state that leaves OPEN once and for all; it is no longer OPEN when its close or error event fires.
- Frames of different streams may overtake each other in the tunnel model, which only adds interleavings; a stray abort keeps its place after the frames sent before it under the same id.
- A send on an OPEN WebSocket does not throw; the branches behind such a throw, and those of a TCP_OPEN or REQ_META that could not be sent, are not modelled. Writing to a real socket does not throw either.
- JSON payloads are records or failures; header sanitizing, error texts and log lines are not modelled.
- Timers fire at any moment; heartbeats, reconnect backoff, readiness files and shutdown are not modelled.
- At the tunnel client, HTTP requests are not modelled; its admission of a TCP_OPEN is an arbitrary answer, and its idle timeout is off (it sends RES_ABORT on TCP streams otherwise, which the relay model covers).
- At the agent, a half-closed socket (`end`) counts as finished once its entry is gone.
- HMAC and Basic authentication, environment readers, the landing page, file serving and the installers.
