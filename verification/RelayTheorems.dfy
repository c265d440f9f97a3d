/**
 * The guarantees of the relay, spelled out on the frame logs: for every run, with arbitrary tunnel
 * clients and agents.
 */
module RelayTheorems {
  import opened Frames
  import opened Relay
  import opened RelayInvariant
  import opened RelayRuns
  import CM = ClientManager
  import RA = RelayAnswers
  import RH = RelayHistory
  import S = RelayStream
  import SI = RelayStreamInvariant
  import H = HttpStream
  import TunnelId

  /** Only the last frame may end the stream; or none does. */
  ghost predicate OnlyLastEnds(log: seq<Frame>) {
    forall i :: 0 <= i < |log| - 1 ==> !Terminal(log[i])
  }

  ghost predicate NoneEnds(log: seq<Frame>) {
    forall i :: 0 <= i < |log| ==> !Terminal(log[i])
  }

  /** After a frame that ends the stream there is no other, no data and no connect-level reply. */
  ghost predicate EndsOnce(log: seq<Frame>) {
    forall i, j :: 0 <= i < j < |log| && Terminal(log[i]) ==> !Terminal(log[j]) && !log[j].TcpData? && !Replies(log[j])
  }

  ghost predicate RepliesOnce(log: seq<Frame>) {
    forall i, j :: 0 <= i < j < |log| && Replies(log[i]) ==> !Replies(log[j])
  }

  ghost predicate NoReplies(log: seq<Frame>) {
    forall i :: 0 <= i < |log| ==> !Replies(log[i])
  }

  function Pauses(log: seq<Frame>): int {
    if |log| == 0 then 0
    else Pauses(log[..|log| - 1]) + (if log[|log| - 1].Pause? then 1 else if log[|log| - 1].Resume? then -1 else 0)
  }

  // ---------------------------------------------------------------------------
  // What well-formed words look like
  // ---------------------------------------------------------------------------

  /** A word to the tunnel client opens once, at the start, and ends at most once, at the end. */
  lemma {:induction false} TalkShape(log: seq<Frame>)
    requires S.ClientTalk(log) != S.Malformed
    ensures |log| > 0 ==> log[0].TcpOpen?
    ensures forall i :: 0 < i < |log| ==> !log[i].TcpOpen?
    ensures forall i :: 0 <= i < |log| - 1 ==> !Terminal(log[i])
    ensures S.ClientTalk(log).Ended? <==> |log| > 0 && Terminal(log[|log| - 1])
    ensures S.ClientTalk(log).Unopened? <==> |log| == 0
  {
    if |log| > 0 {
      TalkShape(log[..|log| - 1]);
    }
  }

  /** At every moment the PAUSEs outnumber the RESUMEs by one or not at all: they alternate, PAUSE first. */
  lemma {:induction false} TalkAlternates(log: seq<Frame>, k: nat)
    requires S.ClientTalk(log) != S.Malformed && k <= |log|
    ensures 0 <= Pauses(log[..k]) <= 1
    ensures S.ClientTalk(log).Talking? ==> Pauses(log) == if S.ClientTalk(log).pausedPeer then 1 else 0
    ensures S.ClientTalk(log).Unopened? ==> Pauses(log) == 0
  {
    if |log| > 0 {
      var before := log[..|log| - 1];
      TalkAlternates(before, |before|);
      assert before[..|before|] == before;
      if k < |log| {
        TalkAlternates(before, k);
        assert before[..k] == log[..k];
      } else {
        assert log[..k] == log;
      }
    } else {
      assert log[..k] == log;
    }
  }

  lemma {:induction false} FarReplies(log: seq<Frame>)
    requires S.FarTalk(log).FarWord?
    ensures forall i, j :: 0 <= i < j < |log| && Replies(log[i]) ==> !Replies(log[j])
    ensures S.FarTalk(log).reply == S.NoReply <==> forall i :: 0 <= i < |log| ==> !Replies(log[i])
  {
    if |log| > 0 {
      var n := |log| - 1;
      FarReplies(log[..n]);
      assert forall i :: 0 <= i < n ==> log[..n][i] == log[i];
    }
  }

  lemma {:induction false} FarEnds(log: seq<Frame>)
    requires S.FarTalk(log).FarWord?
    ensures forall i, j :: 0 <= i < j < |log| && Terminal(log[i]) ==> !Terminal(log[j]) && !log[j].TcpData? && !Replies(log[j])
    ensures S.FarTalk(log).ended <==> exists i :: 0 <= i < |log| && Terminal(log[i])
  {
    if |log| > 0 {
      var n := |log| - 1;
      FarEnds(log[..n]);
      assert forall i :: 0 <= i < n ==> log[..n][i] == log[i];
      if exists i :: 0 <= i < n && Terminal(log[..n][i]) {
        var i :| 0 <= i < n && Terminal(log[..n][i]);
        assert Terminal(log[i]);
      }
    }
  }

  /** A word to the far side: one connect-level reply, one terminal frame, no data after it. */
  lemma FarShape(log: seq<Frame>)
    requires S.FarTalk(log).FarWord?
    ensures forall i, j :: 0 <= i < j < |log| && Replies(log[i]) ==> !Replies(log[j])
    ensures forall i, j :: 0 <= i < j < |log| && Terminal(log[i]) ==> !Terminal(log[j]) && !log[j].TcpData? && !Replies(log[j])
    ensures S.FarTalk(log).ended <==> exists i :: 0 <= i < |log| && Terminal(log[i])
    ensures S.FarTalk(log).reply == S.NoReply <==> forall i :: 0 <= i < |log| ==> !Replies(log[i])
  {
    hide S.FarTalk;
    FarReplies(log);
    FarEnds(log);
  }

  lemma {:induction false} FarCloses(log: seq<Frame>)
    requires S.FarTalk(log).FarWord?
    ensures S.FarTalk(log).closed <==> TcpClose in log
  {
    if |log| > 0 {
      FarCloses(log[..|log| - 1]);
      assert log == log[..|log| - 1] + [log[|log| - 1]];
    }
  }

  // ---------------------------------------------------------------------------
  // Theorems over runs
  // ---------------------------------------------------------------------------

  lemma StreamInv(cfg: Config, script: Script, h: nat)
    requires StreamOfRun(cfg, script, h)
    ensures var s := StreamAfter(cfg, script, h); SI.Inv(s, Surroundings(After(cfg, script).reg, cfg, s.ident))
  {
    hide InvBut, SI.Inv, Step, Enabled;
    RunInv(cfg, script);
    EntryAt(After(cfg, script), cfg, h);
  }

  /**
   * One termination per stream, despite re-entrant close, error, destroy and abort. The tunnel client
   * gets at most one TCP_CLOSE or TCP_ABORT, nothing after it, and none once it ended the stream itself;
   * the agent gets at most one from the virtual socket, no data after it, and none once it ended the
   * stream itself; and onCleanup runs exactly once if the stream is cleaned up, never while it lives,
   * and never if the HTTP cleanup took the record, which happens exactly when RES_DATA, RES_END or
   * RES_ABORT hit it.
   */
  lemma OneTermination(cfg: Config, script: Script, h: nat)
    requires StreamOfRun(cfg, script, h)
    ensures var s := StreamAfter(cfg, script, h);
            && OnlyLastEnds(s.sent.toClient) && (s.took.clientEnded ==> NoneEnds(s.sent.toClient))
            && EndsOnce(s.sent.toFar) && (s.took.farEnded ==> NoneEnds(s.sent.toFar))
            && s.cleanups <= 1
            && (s.cleanups == 1 <==> s.cleaned && !s.took.taken)
            && (s.cleanups == 0 && s.cleaned <==> EverHit(cfg, script, h))
            && (s.cleaned && !s.took.taken ==> s.sock.destroyed)
  {
    hide S.ClientTalk, S.FarTalk, DataOf, TotalBytes, Run, EverHit;
    StreamInv(cfg, script, h);
    RunLost(cfg, script, h);
    var s := StreamAfter(cfg, script, h);
    TalkShape(s.sent.toClient);
    FarShape(s.sent.toFar);
  }

  /** A stream that is gone left a terminal frame, or the tunnel client ended it, or its WebSocket is closed,
      or an HTTP-mode frame hit it: the relay never drops a stream silently otherwise. */
  lemma EndingIsAnnounced(cfg: Config, script: Script, h: nat)
    requires StreamOfRun(cfg, script, h)
    ensures var r, s := After(cfg, script), StreamAfter(cfg, script, h);
            && (s.cleaned && s.ident.ws in r.reg.openClients && s.sent.toClient != []
                ==> LastEnds(s.sent.toClient) || s.took.clientEnded || s.took.crossed)
            && (s.ident.peer.Agent? && s.sock.destroyed && s.ident.AgentWs() in r.reg.openAgents ==> s.took.farEnded || !NoneEnds(s.sent.toFar))
  {
    hide S.ClientTalk, S.FarTalk, DataOf, TotalBytes, Run;
    StreamInv(cfg, script, h);
    var s := StreamAfter(cfg, script, h);
    TalkShape(s.sent.toClient);
    FarShape(s.sent.toFar);
  }

  /**
   * Deferred open: until the tunnel client confirms, no agent data is forwarded and the agent has no
   * reply; and it never has more than one connect-level reply for the stream, before any terminal frame.
   */
  lemma DeferredOpen(cfg: Config, script: Script, h: nat)
    requires StreamOfRun(cfg, script, h)
    ensures var s := StreamAfter(cfg, script, h);
            && (s.awaitingClientAck ==> DataOf(s.sent.toClient) == [] && NoReplies(s.sent.toFar))
            && RepliesOnce(s.sent.toFar) && EndsOnce(s.sent.toFar)
  {
    hide S.ClientTalk, S.FarTalk, DataOf, TotalBytes, Run;
    StreamInv(cfg, script, h);
    FarShape(StreamAfter(cfg, script, h).sent.toFar);
  }

  /**
   * Two-reason pausing, over every run. The tunnel client is paused exactly while the agent's last word on it was
   * PAUSE or the far side is backed up, and is told so by alternating PAUSE and RESUME; a live socket is paused
   * for reading exactly while the client's last word was PAUSE or the client's WebSocket is backed up, re-entrant
   * pauses included.
   */
  lemma PausingExact(cfg: Config, script: Script, h: nat, k: nat)
    requires StreamOfRun(cfg, script, h) && k <= |StreamAfter(cfg, script, h).sent.toClient|
    ensures var r, s := After(cfg, script), StreamAfter(cfg, script, h);
            && s.flow.clientPausedForAgent == (s.flow.agentPaused || s.flow.wsBackpressured)
            && (!s.cleaned && s.ident.ws in r.reg.openClients ==> (Pauses(s.sent.toClient) == 1 <==> s.flow.clientPausedForAgent))
            && 0 <= Pauses(Start(s.sent.toClient, k)) <= 1
            && (!s.sock.destroyed ==> s.sock.paused == (s.flow.peerPausedRead || s.flow.localPausedForWs))
    ensures var r, s, past := After(cfg, script), StreamAfter(cfg, script, h), RH.PastOf(cfg, script, h);
            !s.cleaned ==>
              && (s.ident.ws in r.reg.openClients ==> (Pauses(s.sent.toClient) == 1 <==> HasReason(past)))
              && (!s.sock.destroyed ==> (s.sock.paused <==> RH.ClientAsked(past) || RH.ClientBacked(past)))
              && (s.awaitingClientAck <==> s.ident.peer.Agent? && !RH.Confirmed(past))
  {
    hide S.ClientTalk, S.FarTalk, DataOf, TotalBytes, Run, Pauses, RH.Confirmed, RH.AgentAsked, RH.ClientAsked, RH.FarBacked, RH.ClientBacked,
         RH.DrainDue, RH.Completed, RH.PastOf;
    StreamInv(cfg, script, h);
    TalkAlternates(StreamAfter(cfg, script, h).sent.toClient, k);
    if !StreamAfter(cfg, script, h).cleaned { RH.HistoryIsKnown(cfg, script, h); }
  }

  /** There is a reason for the tunnel client to pause: the agent has asked for it, or the far side is backed up. */
  predicate HasReason(past: RH.Past) {
    RH.AgentAsked(past) || RH.FarBacked(past)
  }

  lemma StillAsKnown(s: S.Stream, t: S.Stream, before: RH.Past, past: RH.Past)
    requires RH.KnowsHistory(s, before) && RH.KnowsHistory(t, past)
    ensures RA.Busy(s) == HasReason(before) && RA.Busy(t) == HasReason(past)
  {
  }

  lemma ChangeIsTold(s: S.Stream, t: S.Stream, e: S.Env, i: Option<RA.Input>)
    requires RH.Did(s, t, e, i) && !t.cleaned && RH.Delivered(t) == RH.Delivered(s)
    ensures t.sent.toClient == s.sent.toClient + if e.wsOpen then RA.Change(RA.Busy(s), RA.Busy(t)) else []
  {
    hide DataOf, RA.FarTold, RA.HeldBack, RA.Forwards, RA.FlagsMove, RA.Ends, RA.Farewell, RA.Arrives;
    RA.Units();
    if i.Some? { RH.ForwardsCounted(s, t, e, i.value); }
    assert s.sent.toClient + [] == s.sent.toClient;
  }

  /**
   * A step that delivers no payload tells an OPEN client of exactly the change it makes: PAUSE when the first
   * reason comes, RESUME when the last one goes, and nothing otherwise.
   */
  lemma ChangesAreTold(cfg: Config, script: Script, h: nat)
    requires StreamOfRun(cfg, script, h) && !StreamAfter(cfg, script, h).cleaned && StreamOfRun(cfg, Before(script), h)
    requires RH.Delivered(StreamAfter(cfg, script, h)) == RH.Delivered(StreamAfter(cfg, Before(script), h))
    ensures StreamAfter(cfg, script, h).sent.toClient == StreamAfter(cfg, Before(script), h).sent.toClient
            + if RH.LastEnv(cfg, script, h).wsOpen then RA.Change(HasReason(RH.PastOf(cfg, Before(script), h)), HasReason(RH.PastOf(cfg, script, h))) else []
  {
    hide Run, RH.Delivered, RH.LastInput, RH.LastEnv, RH.AgentAsked, RH.FarBacked, RH.PastOf, RH.Did;
    NothingAtFirst(cfg, h);
    RH.LastStep(cfg, script, h);
    RH.HistoryIsKnown(cfg, script, h);
    RH.HistoryIsKnown(cfg, Before(script), h);
    var s, t := StreamAfter(cfg, Before(script), h), StreamAfter(cfg, script, h);
    StillAsKnown(s, t, RH.PastOf(cfg, Before(script), h), RH.PastOf(cfg, script, h));
    ChangeIsTold(s, t, RH.LastEnv(cfg, script, h), RH.LastInput(cfg, script, h));
  }

  /**
   * The virtual socket refines an unbounded FIFO: what went to the tunnel client is always a prefix of
   * what came from the far side, and what is missing is exactly the buffer while the stream lives; the
   * buffer is bounded, counted exactly, and empty while the socket is not paused. In the other direction
   * nothing is buffered: what went to the far side is a prefix of what the client sent, and all of it
   * while the agent is reachable.
   */
  lemma ByteOrder(cfg: Config, script: Script, h: nat)
    requires StreamOfRun(cfg, script, h)
    ensures var r, s := After(cfg, script), StreamAfter(cfg, script, h);
            && DataOf(s.sent.toClient) <= s.took.accepted
            && (!s.cleaned && !s.sock.destroyed ==> DataOf(s.sent.toClient) + s.sock.buffered == s.took.accepted)
            && s.sock.bufferedBytes == TotalBytes(s.sock.buffered) <= cfg.destBuffer
            && (!s.sock.paused ==> s.sock.buffered == [])
            && DataOf(s.sent.toFar) <= s.took.received
            && (s.ident.peer.External? || s.ident.AgentWs() in r.reg.openAgents ==> DataOf(s.sent.toFar) == s.took.received)
  {
    hide S.ClientTalk, S.FarTalk, DataOf, TotalBytes, Run;
    StreamInv(cfg, script, h);
    assert StreamAfter(cfg, script, h).sock.buffered == [] ==>
        DataOf(StreamAfter(cfg, script, h).sent.toClient) + [] == DataOf(StreamAfter(cfg, script, h).sent.toClient);
  }

  /** A live record is registered under its id, its tunnel client is registered, and so is its agent, if it has one. */
  predicate Attached(r: Relay, h: nat) {
    h < |r.all| && !r.all[h].Cleaned() ==>
      && r.all[h].Id() in r.streams && r.streams[r.all[h].Id()] == h
      && r.all[h].Ws() in r.reg.clients
      && (r.all[h].Tcp? && r.all[h].t.ident.peer.Agent? ==> r.all[h].t.ident.peer.ws in r.books.agentStreams)
  }

  /** No orphans, and every limit of the settings holds, over all three ways of opening a stream. */
  lemma NoOrphansAndBounds(cfg: Config, script: Script)
    requires Run(cfg, script).Some?
    ensures var r := After(cfg, script);
            && (forall h: nat :: h < |r.all| ==> Attached(r, h))
            && |r.streams| <= cfg.maxStreams
            && |r.reg.clients| <= cfg.maxClients
            && (cfg.agentPortLimit > 0 ==> forall p :: At(r.books.agentCount, p) <= cfg.agentPortLimit)
            && (cfg.directPortLimit > 0 ==> forall p :: At(r.books.directCount, p) <= cfg.directPortLimit)
            && (cfg.agentStreamLimit > 0 ==> forall a :: |OwnedBy(r.books, a)| <= cfg.agentStreamLimit)
  {
    hide SI.Inv, H.Inv, Run;
    RunInv(cfg, script);
    var r := After(cfg, script);
    Clauses(r, cfg, {});
    forall h: nat | h < |r.all| ensures Attached(r, h) {
      if !r.all[h].Cleaned() { assert Live(r.all, h, r.all[h].Id()); }
      if IsTcp(r.all, h) && !r.all[h].Cleaned() && r.all[h].t.ident.peer.Agent? { assert LiveOf(r.all, h, r.all[h].t.ident.peer.ws); }
    }
  }

  /**
   * The tunnel-id map agrees with a scan of the registry, through adds, stale replacements, disconnects
   * and late close events: a named lookup yields the unique OPEN client of that name and fails iff there
   * is none; an unnamed one succeeds iff exactly one client is OPEN, and yields that one.
   */
  lemma LookupsAgree(cfg: Config, script: Script, id: string)
    requires Run(cfg, script).Some? && TunnelId.IsTunnelId(id)
    ensures var reg := After(cfg, script).reg;
            && (CM.Resolve(reg, id).Some? <==> exists ws :: CM.Answers(reg, ws, id))
            && (forall ws: nat :: CM.Answers(reg, ws, id) ==> CM.Resolve(reg, id) == Some((ws, id)))
            && (CM.Resolve(reg, "").Some? <==> |reg.openClients| == 1)
            && (forall c :: CM.Resolve(reg, "") == Some(c) ==> reg.openClients == {c.0})
  {
    hide Run, CM.Resolve, CM.Answers, CM.Indexed, SI.Inv, H.Inv;
    RunInv(cfg, script);
    Clauses(After(cfg, script), cfg, {});
    CM.NamedLookup(After(cfg, script).reg, id);
    CM.UnnamedLookup(After(cfg, script).reg);
  }
}
