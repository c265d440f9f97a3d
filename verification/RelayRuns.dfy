/** What holds after every run of the relay, whatever its tunnel clients, agents and sockets do. */
module RelayRuns {
  import opened Frames
  import opened Relay
  import opened RelayInvariant
  import opened RelayMoves
  import CM = ClientManager
  import S = RelayStream
  import SI = RelayStreamInvariant
  import H = HttpStream

  type Script = seq<(Readings, Event)>

  /** The relay after a script of steps; None if some step could not have happened. */
  function Run(cfg: Config, script: Script): Option<Relay> {
    if |script| == 0 then Some(Initial())
    else
      var n := |script| - 1;
      var before := Run(cfg, script[..n]);
      if before.Some? && Enabled(before.value, cfg, script[n].0, script[n].1)
      then Some(Step(before.value, cfg, script[n].0, script[n].1))
      else None
  }

  /** The state a possible script leads to. */
  function After(cfg: Config, script: Script): Relay {
    var r := Run(cfg, script);
    if r.Some? then r.value else Initial()
  }

  /** Handle h is a TCP stream after this script. */
  predicate StreamOfRun(cfg: Config, script: Script, h: nat) {
    Run(cfg, script).Some? && IsTcp(After(cfg, script).all, h)
  }

  function StreamAfter(cfg: Config, script: Script, h: nat): S.Stream {
    TcpAt(After(cfg, script).all, h)
  }

  /** The last step of a script, and the script up to it. */
  function Last(script: Script): (Readings, Event) {
    if script == [] then (Readings(false, false, [], map[], H.HttpEnv(false, false, false, false, false, false)), WebRequest)
    else script[|script| - 1]
  }

  function Before(script: Script): Script {
    if script == [] then [] else script[..|script| - 1]
  }

  lemma NothingAtFirst(cfg: Config, h: nat)
    ensures !StreamOfRun(cfg, [], h)
  {
  }

  /** Every reachable state satisfies the invariant. */
  lemma {:induction false} RunInv(cfg: Config, script: Script)
    requires Run(cfg, script).Some?
    ensures Inv(After(cfg, script), cfg)
  {
    hide InvBut, Step, Enabled;
    if |script| == 0 {
      InitialInv(cfg);
    } else {
      var n := |script| - 1;
      RunInv(cfg, script[..n]);
      StepInv(After(cfg, script[..n]), cfg, script[n].0, script[n].1);
    }
  }

  // ---------------------------------------------------------------------------
  // HTTP-mode frames on TCP streams
  // ---------------------------------------------------------------------------

  /** The step delivers RES_DATA, RES_END or RES_ABORT to the TCP stream under handle h. */
  predicate HttpHit(r: Relay, ev: Event, h: nat) {
    FromItsClient(r, ev, h) && r.all[h].Tcp? && (ev.f.ResData? || ev.f.ResEnd? || ev.f.ResAbort?)
  }

  /** Some step of the script did. */
  predicate EverHit(cfg: Config, script: Script, h: nat)
  {
    |script| > 0
    && var n := |script| - 1;
       EverHit(cfg, script[..n], h) || (Run(cfg, script[..n]).Some? && HttpHit(After(cfg, script[..n]), script[n].1, h))
  }

  /** Gone, but its onCleanup never ran and never will. */
  predicate Lost(e: Entry) {
    e.Tcp? && e.t.cleaned && e.t.cleanups == 0
  }

  /** Of the frames to one live stream, exactly RES_DATA, RES_END and RES_ABORT lose it. */
  lemma FromClientLoses(s: S.Stream, e: S.Env, f: Frame)
    requires SI.Inv(s, e) && !s.cleaned
    ensures var t := S.FromClient(s, e, f);
            t.cleaned && t.cleanups == 0 <==> f.ResData? || f.ResEnd? || f.ResAbort?
  {
    hide S.Abort, S.SyncReadState, S.SyncBackpressure, S.Cleanup, S.WriteFar, S.ClientTalk, SI.LastTalk, SI.Core,
         SI.Grows;
    SI.FromClientInv(s, e, f);
    if f.ResMeta? { AbortReleases(s.(took := s.took.(crossed := true)), e, false); }
    if !f.ResMeta? && !f.ResData? && !f.ResEnd? && !f.ResAbort? { TcpKeepsTaken(s, e, f); }
  }

  lemma TcpKeepsTaken(s: S.Stream, e: S.Env, f: Frame)
    requires !f.ResMeta? && !f.ResData? && !f.ResEnd? && !f.ResAbort?
    ensures S.FromClient(s, e, f).took.taken == s.took.taken
  {
    hide S.Abort, S.SyncReadState, S.SyncBackpressure, S.Cleanup, S.WriteFar, S.ClientTalk, S.FarTalk, DataOf;
  }

  /** Neither the agent, nor a callback, socket event, timer or disconnect ever loses a stream. */
  lemma OthersNeverLose(s: S.Stream, e: S.Env)
    requires SI.Inv(s, e) && !Lost(Tcp(s))
    ensures forall f :: !s.cleaned && s.ident.peer.Agent? ==> !Lost(Tcp(S.FromAgent(s, e, f)))
    ensures forall ev :: S.Possible(s, e, ev) ==> !Lost(Tcp(S.OnLocal(s, e, ev)))
  {
    hide S.Abort, S.SyncReadState, S.SyncBackpressure, S.Cleanup, S.OnClose, S.OnError, S.OnDrain, S.OnData,
         S.AbortSocket, S.ClientTalk, SI.LastTalk, SI.Core;
    forall f | !s.cleaned && s.ident.peer.Agent?
      ensures !Lost(Tcp(S.FromAgent(s, e, f)))
    {
      SI.FromAgentInv(s, e, f);
    }
    forall ev | S.Possible(s, e, ev)
      ensures !Lost(Tcp(S.OnLocal(s, e, ev)))
    {
      SI.OnLocalInv(s, e, ev);
    }
  }

  /** A stream that is lost stays lost. */
  lemma LostStays(s: S.Stream, e: S.Env)
    requires SI.Inv(s, e) && s.cleaned
    ensures forall ev :: S.Possible(s, e, ev) ==> Lost(Tcp(S.OnLocal(s, e, ev))) == Lost(Tcp(s))
    ensures forall b :: S.Abort(s, e, b) == s
  {
    hide S.OnLocal, SI.InvWith, S.ClientTalk, S.FarTalk, DataOf;
    forall ev | S.Possible(s, e, ev) ensures Lost(Tcp(S.OnLocal(s, e, ev))) == Lost(Tcp(s)) {
      SI.OnLocalInv(s, e, ev);
    }
  }

  /** A step loses a stream exactly when it is such a hit on it. */
  lemma StepLost(r: Relay, cfg: Config, rd: Readings, ev: Event, h: nat)
    requires Inv(r, cfg) && Enabled(r, cfg, rd, ev) && IsTcp(r.all, h)
    ensures Lost(Tcp(Moved(r, cfg, rd, ev, h))) <==> Lost(RecordAt(r.all, h)) || HttpHit(r, ev, h)
  {
    hide InvBut, SI.Inv, S.FromClient, S.FromAgent, S.OnLocal, S.Abort, S.Possible;
    var t := r.all[h].t;
    var e := EnvOf(r, cfg, rd, t.ident);
    EntryAt(r, cfg, h);
    TcpReady(r, cfg, rd, t);
    RegisteredOf(r, cfg);
    FromItsOwnLive(r, ev, h);
    if t.cleaned {
      LostStays(t, e);
    } else {
      LiveOwes(r, cfg, h);
      OthersNeverLose(t, e);
      AbortReleases(t, e, true);
      AbortReleases(t, e, false);
      if FromItsClient(r, ev, h) { FromClientLoses(t, e, ev.f); }
    }
  }

  /** Frames are only handed to live records. */
  lemma FromItsOwnLive(r: Relay, ev: Event, h: nat)
    requires Registered(r.all, r.streams)
    ensures FromItsClient(r, ev, h) || FromItsAgent(r, ev, h) ==> !RecordAt(r.all, h).Cleaned()
  {
  }

  /** In every run, a stream is lost exactly when such a hit befell it. */
  lemma {:induction false} RunLost(cfg: Config, script: Script, h: nat)
    requires Run(cfg, script).Some?
    ensures EverHit(cfg, script, h) ==> h < |After(cfg, script).all|
    ensures h < |After(cfg, script).all| ==> (Lost(RecordAt(After(cfg, script).all, h)) <==> EverHit(cfg, script, h))
    ensures EverHit(cfg, script, h) ==> IsTcp(After(cfg, script).all, h)
  {
    hide InvBut, Step, Enabled, HttpHit, Lost;
    if |script| > 0 {
      var n := |script| - 1;
      RunLost(cfg, script[..n], h);
      RunInv(cfg, script[..n]);
      RunLostStep(After(cfg, script[..n]), cfg, script[n].0, script[n].1, h);
    }
  }

  lemma RunLostStep(r: Relay, cfg: Config, rd: Readings, ev: Event, h: nat)
    requires Inv(r, cfg) && Enabled(r, cfg, rd, ev)
    ensures var r' := Step(r, cfg, rd, ev);
            && |r.all| <= |r'.all|
            && (HttpHit(r, ev, h) ==> IsTcp(r.all, h))
            && (h < |r.all| ==> (IsTcp(r'.all, h) <==> IsTcp(r.all, h)) && (Lost(RecordAt(r'.all, h)) <==> Lost(RecordAt(r.all, h)) || HttpHit(r, ev, h)))
            && (|r.all| <= h < |r'.all| ==> !Lost(RecordAt(r'.all, h)))
  {
    hide Step, Enabled, Moved;
    StepAdds(r, cfg, rd, ev, h);
    if h < |r.all| {
      if r.all[h].Tcp? {
        StepMoved(r, cfg, rd, ev, h);
        StepLost(r, cfg, rd, ev, h);
      } else {
        WebStays(r, cfg, rd, ev, h);
      }
    }
  }

  /** An HTTP record stays one. */
  lemma WebStays(r: Relay, cfg: Config, rd: Readings, ev: Event, h: nat)
    requires Inv(r, cfg) && Enabled(r, cfg, rd, ev) && h < |r.all| && !IsTcp(r.all, h)
    ensures h < |Step(r, cfg, rd, ev).all| && !IsTcp(Step(r, cfg, rd, ev).all, h)
  {
    hide InvBut, S.FromClient, S.FromAgent, S.OnLocal, S.Abort, H.Abort, H.FromClient, H.OnLocal, Connect,
         AcceptDirect, AcceptWeb, AbortAll, CM.AddClient, CM.ForgetClient, S.Possible, H.Possible;
    AllOweOf(r, cfg);
    match ev
    case ClientLeaves(ws) => AbortAllAt(r.(reg := CM.ForgetClient(r.reg, ws)), cfg, rd, OfClient(ws), 0, h);
    case AgentLeaves(a) =>
      if a in r.books.agentStreams {
        AbortAllAt(r.(books := r.books.(agentStreams := r.books.agentStreams - {a})), cfg, rd, OfIds(r.books.agentStreams[a]), 0, h);
      }
    case AgentSends(a, id, f) => if f.TcpConnect? { ConnectAdds(r, cfg, rd, a, f.request); }
    case DirectConnection(port, ok) => AcceptAdds(r, cfg, rd, port, ok);
    case WebRequest => AcceptAdds(r, cfg, rd, 0, true);
    case _ =>
  }

  // ---------------------------------------------------------------------------
  // Exact accounting
  // ---------------------------------------------------------------------------

  /** A TCP stream, live or not, counted on this port. */
  predicate OnPort(e: Entry, port: int, agentSide: bool) {
    e.Tcp? && e.t.ident.peer.Agent? == agentSide && e.t.ident.serverPort == port
  }

  predicate LiveOnPort(e: Entry, port: int, agentSide: bool) {
    OnPort(e, port, agentSide) && !e.t.cleaned
  }

  /** The number of live TCP streams on a port. */
  function LiveCount(all: seq<Entry>, port: int, agentSide: bool): nat {
    if |all| == 0 then 0
    else LiveCount(all[..|all| - 1], port, agentSide) + if LiveOnPort(all[|all| - 1], port, agentSide) then 1 else 0
  }

  ghost predicate SomeLost(all: seq<Entry>, port: int, agentSide: bool) {
    exists h :: 0 <= h < |all| && OnPort(all[h], port, agentSide) && Lost(all[h])
  }

  lemma {:induction false} OwingVersusLive(all: seq<Entry>, port: int, agentSide: bool)
    requires forall h :: 0 <= h < |all| && LiveOnPort(all[h], port, agentSide) ==> Owes(all[h], port, agentSide)
    ensures Owing(all, port, agentSide) >= LiveCount(all, port, agentSide)
    ensures Owing(all, port, agentSide) == LiveCount(all, port, agentSide) <==> !SomeLost(all, port, agentSide)
  {
    if |all| > 0 {
      var n := |all| - 1;
      OwingVersusLive(all[..n], port, agentSide);
      if SomeLost(all, port, agentSide) {
        var h :| 0 <= h < |all| && OnPort(all[h], port, agentSide) && Lost(all[h]);
        if h < n { assert OnPort(all[..n][h], port, agentSide) && Lost(all[..n][h]); }
      }
      if SomeLost(all[..n], port, agentSide) {
        var h :| 0 <= h < n && OnPort(all[..n][h], port, agentSide) && Lost(all[..n][h]);
        assert OnPort(all[h], port, agentSide) && Lost(all[h]);
      }
    }
  }

  /** A stream of this port, live or not, was hit. */
  ghost predicate PortHit(cfg: Config, script: Script, port: int, agentSide: bool) {
    exists h: nat :: OnPort(RecordAt(After(cfg, script).all, h), port, agentSide) && EverHit(cfg, script, h)
  }

  lemma PortLost(cfg: Config, script: Script, port: int, agentSide: bool)
    requires Run(cfg, script).Some?
    ensures SomeLost(After(cfg, script).all, port, agentSide) <==> PortHit(cfg, script, port, agentSide)
  {
    hide Run, EverHit, Lost;
    var all := After(cfg, script).all;
    forall h: nat ensures EverHit(cfg, script, h) ==> h < |all| ensures h < |all| ==> (Lost(all[h]) <==> EverHit(cfg, script, h)) { RunLost(cfg, script, h); }
    if SomeLost(all, port, agentSide) {
      var h :| 0 <= h < |all| && OnPort(all[h], port, agentSide) && Lost(all[h]);
      assert OnPort(RecordAt(all, h), port, agentSide) && EverHit(cfg, script, h);
    }
  }

  /**
   * In every reachable state the port counters are never too small, and a counter equals the number of
   * live streams on its port exactly when no RES_DATA, RES_END or RES_ABORT ever hit a live TCP stream of
   * that port. Agent-side and direct counters separately.
   */
  lemma AccountingExactIff(cfg: Config, script: Script, port: int)
    requires Run(cfg, script).Some?
    ensures var r := After(cfg, script);
            && At(r.books.agentCount, port) >= LiveCount(r.all, port, true)
            && At(r.books.directCount, port) >= LiveCount(r.all, port, false)
            && (At(r.books.agentCount, port) == LiveCount(r.all, port, true) <==> !PortHit(cfg, script, port, true))
            && (At(r.books.directCount, port) == LiveCount(r.all, port, false) <==> !PortHit(cfg, script, port, false))
  {
    hide SI.Inv, H.Inv, Registered, Owned, NoOrphans, Known, Bounded, CM.Indexed, Run, PortHit, EntriesOk;
    RunInv(cfg, script);
    var r := After(cfg, script);
    Clauses(r, cfg, {});
    AllOweOf(r, cfg);
    OwingVersusLive(r.all, port, true);
    OwingVersusLive(r.all, port, false);
    PortLost(cfg, script, port, true);
    PortLost(cfg, script, port, false);
  }

  // ---------------------------------------------------------------------------
  // The agents' owned sets
  // ---------------------------------------------------------------------------

  /** The id is that of a live stream of agent a. */
  predicate LiveUnder(r: Relay, id: nat, a: nat) {
    id in r.streams && LiveOf(r.all, r.streams[id], a)
  }

  /** The set of agent a is exactly the ids of its live streams. */
  ghost predicate SetExact(r: Relay, a: nat) {
    forall id :: id in OwnedBy(r.books, a) <==> LiveUnder(r, id, a)
  }

  /** The last record agent a had under some id was hit. */
  ghost predicate NewestHit(cfg: Config, script: Script, a: nat) {
    exists h: nat, id: nat :: Newest(After(cfg, script).all, h, a, id) && EverHit(cfg, script, h)
  }

  /** An id is in an agent's set exactly when the last record the agent had under it still owes its onCleanup. */
  lemma OwnedIsNewest(cfg: Config, script: Script, a: nat, id: nat)
    requires Run(cfg, script).Some? && a in After(cfg, script).books.agentStreams
    ensures var r := After(cfg, script); id in OwnedBy(r.books, a) <==> NewestOwes(r.all, a, id)
  {
    hide Run, NewestOwes, Registered, Accounted, NoOrphans, Bounded, CM.Indexed, Known, EntriesOk;
    RunInv(cfg, script);
    Clauses(After(cfg, script), cfg, {});
  }

  lemma NewestLost(r: Relay, cfg: Config, a: nat, h: nat, id: nat)
    requires Inv(r, cfg) && a in r.books.agentStreams && Newest(r.all, h, a, id)
    ensures Lost(RecordAt(r.all, h)) ==> id in OwnedBy(r.books, a) && !LiveUnder(r, id, a)
    ensures !Lost(RecordAt(r.all, h)) ==> (id in OwnedBy(r.books, a) <==> LiveUnder(r, id, a))
  {
    hide Accounted, NoOrphans, Bounded, CM.Indexed, Known, EntriesOk;
    Clauses(r, cfg, {});
    AllOweOf(r, cfg);
    assert OwesLast(r.all, h, a, id) <==> r.all[h].t.cleanups == 0;
    forall k: nat | OwesLast(r.all, k, a, id) ensures OwesLast(r.all, h, a, id) { NewestUnique(r.all, k, h, a, id); }
    assert Live(r.all, h, id) <==> !r.all[h].Cleaned();
    if id in r.streams && LiveOf(r.all, r.streams[id], a) {
      LiveIsNewest(r.all, r.streams[id], a);
      NewestUnique(r.all, r.streams[id], h, a, id);
    }
  }

  /**
   * An agent's set is exactly the ids of its live streams if and only if no RES_DATA, RES_END or RES_ABORT
   * ever hit the last stream the agent had under some id.
   */
  lemma OwnedExactIff(cfg: Config, script: Script, a: nat)
    requires Run(cfg, script).Some? && a in After(cfg, script).books.agentStreams
    ensures SetExact(After(cfg, script), a) <==> !NewestHit(cfg, script, a)
  {
    hide Run, EverHit, Newest, InvBut, Lost;
    RunInv(cfg, script);
    var r := After(cfg, script);
    forall h: nat, id: nat | Newest(r.all, h, a, id)
      ensures h < |r.all| && (EverHit(cfg, script, h) <==> Lost(r.all[h]))
      ensures Lost(r.all[h]) ==> id in OwnedBy(r.books, a) && !LiveUnder(r, id, a)
      ensures !Lost(r.all[h]) ==> (id in OwnedBy(r.books, a) <==> LiveUnder(r, id, a))
    {
      NewestIn(r.all, h, a, id);
      RunLost(cfg, script, h);
      NewestLost(r, cfg, a, h, id);
    }
    if !NewestHit(cfg, script, a) {
      forall id ensures id in OwnedBy(r.books, a) <==> LiveUnder(r, id, a) {
        OwnedHasNewest(r, cfg, a, id);
      }
    }
  }

  lemma NewestIn(all: seq<Entry>, h: nat, a: nat, id: nat)
    requires Newest(all, h, a, id)
    ensures h < |all|
  {
  }

  /** Whatever is in the set, and whatever is live, has a newest record. */
  lemma OwnedHasNewest(r: Relay, cfg: Config, a: nat, id: nat)
    requires Inv(r, cfg) && a in r.books.agentStreams
    ensures id in OwnedBy(r.books, a) || LiveUnder(r, id, a) ==> exists h: nat :: Newest(r.all, h, a, id)
  {
    hide Accounted, NoOrphans, Bounded, CM.Indexed, Known, EntriesOk;
    Clauses(r, cfg, {});
    if id in r.books.agentStreams[a] {
      var h: nat :| OwesLast(r.all, h, a, id);
      assert Newest(r.all, h, a, id);
    } else if id in r.streams && LiveOf(r.all, r.streams[id], a) {
      LiveIsNewest(r.all, r.streams[id], a);
      assert Newest(r.all, r.streams[id], a, id);
    }
  }

  /** The step cleanupAgent runs for agent a changes no TCP stream but the agent's own. */
  ghost predicate EndsOnlyOwn(r: Relay, cfg: Config, rd: Readings, a: nat) {
    forall h: nat :: IsTcp(r.all, h) ==>
      RecordAt(Step(r, cfg, rd, AgentLeaves(a)).all, h) == RecordAt(r.all, h) || TcpAt(r.all, h).ident.peer == S.Agent(a)
  }

  /** A live TCP stream of somebody else runs under an id in the agent's set. */
  ghost predicate SetStale(r: Relay, a: nat) {
    exists id :: id in OwnedBy(r.books, a) && id in r.streams && Foreign(r.all, r.streams[id], a)
  }

  predicate Foreign(all: seq<Entry>, h: nat, a: nat) {
    h < |all| && all[h].Tcp? && all[h].t.ident.peer != S.Agent(a)
  }

  /** cleanupAgent ends only the agent's own streams exactly when no id of its set was reused by another's. */
  lemma AgentCleanupIff(r: Relay, cfg: Config, rd: Readings, a: nat)
    requires Inv(r, cfg) && a in r.books.agentStreams
    ensures |Step(r, cfg, rd, AgentLeaves(a)).all| == |r.all|
    ensures EndsOnlyOwn(r, cfg, rd, a) <==> !SetStale(r, a)
  {
    hide InvBut, Step, S.Abort;
    RegisteredOf(r, cfg);
    AgentLeavesLength(r, cfg, rd, a);
    var owned, all' := OwnedBy(r.books, a), Step(r, cfg, rd, AgentLeaves(a)).all;
    forall h: nat | IsTcp(r.all, h)
      ensures RecordAt(all', h) != RecordAt(r.all, h) <==> TcpAt(r.all, h).ident.id in owned && !TcpAt(r.all, h).cleaned
    {
      StepMoved(r, cfg, rd, AgentLeaves(a), h);
      AbortChangesLive(r.all[h].t, EnvOf(r, cfg, rd, r.all[h].t.ident));
    }
    forall id | id in owned && id in r.streams ensures Live(r.all, r.streams[id], id) { }
    if !EndsOnlyOwn(r, cfg, rd, a) {
      var h: nat :| IsTcp(r.all, h) && RecordAt(all', h) != RecordAt(r.all, h) && TcpAt(r.all, h).ident.peer != S.Agent(a);
      assert Live(r.all, h, r.all[h].t.ident.id);
      assert Foreign(r.all, r.streams[r.all[h].t.ident.id], a);
    }
    if SetStale(r, a) {
      var id :| id in owned && id in r.streams && Foreign(r.all, r.streams[id], a);
      assert IsTcp(r.all, r.streams[id]);
    }
  }

  lemma AgentLeavesLength(r: Relay, cfg: Config, rd: Readings, a: nat)
    ensures |Step(r, cfg, rd, AgentLeaves(a)).all| == |r.all|
  {
  }

  lemma AbortChangesLive(t: S.Stream, e: S.Env)
    ensures S.Abort(t, e, true) != t <==> !t.cleaned
  {
    hide S.ClientTalk, S.FarTalk, DataOf;
    if !t.cleaned { AbortReleases(t, e, true); }
  }

  /**
   * In every run, if no such frame ever hit the last stream the agent had under some id, cleanupAgent ends
   * only streams of this agent, and all of them.
   */
  lemma AgentCleanupEndsItsOwn(cfg: Config, script: Script, rd: Readings, a: nat)
    requires Run(cfg, script).Some? && a in After(cfg, script).books.agentStreams && !NewestHit(cfg, script, a)
    ensures var r := After(cfg, script); var r' := Step(r, cfg, rd, AgentLeaves(a));
            && |r'.all| == |r.all| && EndsOnlyOwn(r, cfg, rd, a)
            && forall h: nat :: LiveOf(r.all, h, a) ==> RecordAt(r'.all, h).Cleaned()
  {
    hide Run, NewestHit, InvBut, Step, S.Abort, EndsOnlyOwn;
    RunInv(cfg, script);
    var r := After(cfg, script);
    OwnedExactIff(cfg, script, a);
    assert !SetStale(r, a);
    AgentCleanupIff(r, cfg, rd, a);
    RegisteredOf(r, cfg);
    forall h: nat | LiveOf(r.all, h, a) ensures RecordAt(Step(r, cfg, rd, AgentLeaves(a)).all, h).Cleaned() {
      assert Live(r.all, h, r.all[h].Id());
      StepMoved(r, cfg, rd, AgentLeaves(a), h);
      AbortReleases(r.all[h].t, EnvOf(r, cfg, rd, r.all[h].t.ident), true);
    }
  }
}
