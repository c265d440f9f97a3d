/** What every step of the relay keeps, whatever clients, agents and the network do. */
module RelayInvariant {
  import opened Frames
  import opened ClientManager
  import opened Relay
  import S = RelayStream
  import SI = RelayStreamInvariant
  import H = HttpStream
  import Ids = StreamIds
  import TunnelId

  // ---------------------------------------------------------------------------
  // The invariant
  // ---------------------------------------------------------------------------

  /** Record h is not cleaned up and carries this id. */
  predicate Live(all: seq<Entry>, h: nat, id: nat) {
    h < |all| && !all[h].Cleaned() && all[h].Id() == id
  }

  /** The id map holds exactly the records that are not cleaned up, each under its own valid id. */
  ghost predicate Registered(all: seq<Entry>, streams: map<nat, nat>) {
    && (forall id :: id in streams ==> Live(all, streams[id], id) && Ids.IsId(id))
    && (forall h, id :: Live(all, h, id) ==> id in streams && streams[id] == h)
  }

  /** The stream's onCleanup is still owed to the books of this port. */
  predicate Owes(e: Entry, port: int, agentSide: bool) {
    e.Tcp? && e.t.cleanups == 0 && e.t.ident.peer.Agent? == agentSide && e.t.ident.serverPort == port
  }

  function Owing(all: seq<Entry>, port: int, agentSide: bool): nat {
    if |all| == 0 then 0
    else Owing(all[..|all| - 1], port, agentSide) + if Owes(all[|all| - 1], port, agentSide) then 1 else 0
  }

  /** Each port counter is the number of streams that still owe their onCleanup on that port. */
  ghost predicate Accounted(all: seq<Entry>, b: Books) {
    && (forall p :: At(b.agentCount, p) == Owing(all, p, true))
    && (forall p :: At(b.directCount, p) == Owing(all, p, false))
  }

  /** A record of agent a under this id. */
  predicate Bears(e: Entry, a: nat, id: nat) {
    e.Tcp? && e.t.ident.peer == S.Agent(a) && e.t.ident.id == id
  }

  /** Record h is the last one agent a had under this id. */
  ghost predicate Newest(all: seq<Entry>, h: nat, a: nat, id: nat) {
    h < |all| && Bears(all[h], a, id) && forall k :: h < k < |all| ==> !Bears(all[k], a, id)
  }

  /** Record h is the last one of agent a under this id, and its onCleanup has not run. */
  ghost predicate OwesLast(all: seq<Entry>, h: nat, a: nat, id: nat) {
    Newest(all, h, a, id) && all[h].t.cleanups == 0
  }

  ghost predicate NewestOwes(all: seq<Entry>, a: nat, id: nat) {
    exists h: nat :: OwesLast(all, h, a, id)
  }

  /** Of two records that had the same id, the older one is gone. */
  ghost predicate Succeeded(all: seq<Entry>) {
    forall g, h :: 0 <= g < h < |all| && all[g].Id() == all[h].Id() ==> all[g].Cleaned()
  }

  /** Record h is a live stream of agent a. */
  predicate LiveOf(all: seq<Entry>, h: nat, a: nat) {
    h < |all| && all[h].Tcp? && !all[h].Cleaned() && all[h].t.ident.peer == S.Agent(a)
  }

  /**
   * An agent's set holds exactly the ids whose last record still owes its onCleanup, and every live
   * stream's agent is registered. The handles in `exempt` are live streams a teardown in progress has
   * yet to reach.
   */
  ghost predicate Owned(all: seq<Entry>, b: Books, exempt: set<nat>) {
    && (forall h: nat, a: nat :: LiveOf(all, h, a) && h !in exempt ==> a in b.agentStreams)
    && (forall a, id :: a in b.agentStreams ==> (id in b.agentStreams[a] <==> NewestOwes(all, a, id)))
    && Succeeded(all)
  }

  /** Every live stream's tunnel WebSocket is a registered client. */
  ghost predicate NoOrphans(all: seq<Entry>, reg: Registry, exempt: set<nat>) {
    forall h :: 0 <= h < |all| && !all[h].Cleaned() && h !in exempt ==> all[h].Ws() in reg.clients
  }

  /** The limits of the settings. */
  ghost predicate Bounded(streams: map<nat, nat>, b: Books, reg: Registry, cfg: Config) {
    && |streams| <= cfg.maxStreams
    && |reg.clients| <= cfg.maxClients
    && (cfg.agentPortLimit > 0 ==> forall p :: At(b.agentCount, p) <= cfg.agentPortLimit)
    && (cfg.directPortLimit > 0 ==> forall p :: At(b.directCount, p) <= cfg.directPortLimit)
    && (cfg.agentStreamLimit > 0 ==> forall a :: a in b.agentStreams ==> |b.agentStreams[a]| <= cfg.agentStreamLimit)
  }

  /** Records only ever name WebSockets that have joined. */
  ghost predicate Known(all: seq<Entry>, reg: Registry) {
    forall h :: 0 <= h < |all| ==> all[h].Ws() in reg.tunnelOf
  }

  function Surroundings(reg: Registry, cfg: Config, i: S.Identity): S.Env {
    S.Env(i.ws in reg.openClients, i.peer.Agent? && i.peer.ws in reg.openAgents, false, false, [], cfg.destBuffer)
  }

  ghost predicate EntryOk(reg: Registry, cfg: Config, e: Entry) {
    match e
    case Tcp(t) => SI.Inv(t, Surroundings(reg, cfg, t.ident))
    case Web(w) => H.Inv(w, w.ws in reg.openClients)
  }

  ghost predicate EntriesOk(all: seq<Entry>, reg: Registry, cfg: Config) {
    forall h :: 0 <= h < |all| ==> EntryOk(reg, cfg, all[h])
  }

  datatype Clause = IdMap | Counters | AgentSets | Clients | Limits | TunnelIds | Names | Records

  ghost predicate Meets(c: Clause, r: Relay, cfg: Config, exempt: set<nat>) {
    match c
    case IdMap => Registered(r.all, r.streams)
    case Counters => Accounted(r.all, r.books)
    case AgentSets => Owned(r.all, r.books, exempt)
    case Clients => NoOrphans(r.all, r.reg, exempt)
    case Limits => Bounded(r.streams, r.books, r.reg, cfg)
    case TunnelIds => Indexed(r.reg)
    case Names => Known(r.all, r.reg)
    case Records => EntriesOk(r.all, r.reg, cfg)
  }

  /** Quantified over its clauses, so that stating it does not spell them out: lemma Clauses does. */
  ghost predicate InvBut(r: Relay, cfg: Config, exempt: set<nat>) {
    forall c :: Meets(c, r, cfg, exempt)
  }

  lemma Clauses(r: Relay, cfg: Config, exempt: set<nat>)
    ensures InvBut(r, cfg, exempt) <==>
            && Registered(r.all, r.streams) && Accounted(r.all, r.books)
            && Owned(r.all, r.books, exempt) && NoOrphans(r.all, r.reg, exempt)
            && Bounded(r.streams, r.books, r.reg, cfg) && Indexed(r.reg)
            && Known(r.all, r.reg) && EntriesOk(r.all, r.reg, cfg)
  {
    hide Registered, Accounted, Owned, NoOrphans, Bounded, Indexed, Known, EntriesOk;
    if InvBut(r, cfg, exempt) {
      assert Meets(IdMap, r, cfg, exempt) && Meets(Counters, r, cfg, exempt) && Meets(AgentSets, r, cfg, exempt)
          && Meets(Clients, r, cfg, exempt) && Meets(Limits, r, cfg, exempt) && Meets(TunnelIds, r, cfg, exempt)
          && Meets(Names, r, cfg, exempt) && Meets(Records, r, cfg, exempt);
    }
  }

  ghost predicate Inv(r: Relay, cfg: Config) {
    InvBut(r, cfg, {})
  }

  // ---------------------------------------------------------------------------
  // Counting
  // ---------------------------------------------------------------------------

  lemma {:induction false} OwingUpdate(all: seq<Entry>, h: nat, e: Entry, p: int, side: bool)
    requires h < |all|
    ensures Owing(all[h := e], p, side) + (if Owes(all[h], p, side) then 1 else 0)
         == Owing(all, p, side) + (if Owes(e, p, side) then 1 else 0)
  {
    var n := |all| - 1;
    if h == n {
      assert all[h := e][..n] == all[..n];
    } else {
      assert all[h := e][..n] == all[..n][h := e];
      OwingUpdate(all[..n], h, e, p, side);
    }
  }

  lemma OwingAppend(all: seq<Entry>, e: Entry, p: int, side: bool)
    ensures Owing(all + [e], p, side) == Owing(all, p, side) + if Owes(e, p, side) then 1 else 0
  {
    assert (all + [e])[..|all|] == all;
  }

  lemma {:induction false} OwingPositive(all: seq<Entry>, h: nat, p: int, side: bool)
    requires h < |all| && Owes(all[h], p, side)
    ensures Owing(all, p, side) > 0
  {
    if h < |all| - 1 {
      OwingPositive(all[..|all| - 1], h, p, side);
    }
  }

  // ---------------------------------------------------------------------------
  // Settling one record
  // ---------------------------------------------------------------------------

  /** What a step may turn a record into, as far as the books are concerned. */
  ghost predicate Follows(e: Entry, e': Entry) {
    && e'.Id() == e.Id() && e'.Ws() == e.Ws() && (e.Cleaned() ==> e'.Cleaned())
    && e.Tcp? == e'.Tcp?
    && (e.Tcp? ==> e'.t.ident == e.t.ident
                   && e.t.cleanups <= e'.t.cleanups <= 1
                   && (e.t.cleaned ==> e'.t.cleanups == e.t.cleanups)
                   && (!e'.t.cleaned ==> e'.t.cleanups == 0))
  }

  /** onCleanup has been called between these two values of a record. */
  predicate Released(e: Entry, e': Entry) {
    e.Tcp? && e'.Tcp? && e.t.cleanups == 0 && e'.t.cleanups == 1
  }

  lemma SettledOnce(b: Books, i: S.Identity, from: nat, to: nat)
    requires to <= 1
    ensures Settled(b, i, from, to) == if from == 0 && to == 1 then Release(b, i) else b
  {
    if from == 0 && to == 1 { assert Settled(Release(b, i), i, 1, 1) == Release(b, i); }
  }

  /** Since onCleanup runs at most once, the books are settled at most once. */
  lemma SettleBooks(r: Relay, h: nat, e': Entry)
    requires h < |r.all| && Follows(RecordAt(r.all, h), e')
    ensures Settle(r, h, e').books == if Released(r.all[h], e') then Release(r.books, r.all[h].t.ident) else r.books
  {
    hide Release, Settled;
    if e'.Tcp? { SettledOnce(r.books, r.all[h].t.ident, r.all[h].t.cleanups, e'.t.cleanups); }
  }

  lemma SettleRegistered(r: Relay, h: nat, e': Entry)
    requires Registered(r.all, r.streams) && h < |r.all| && Follows(RecordAt(r.all, h), e')
    ensures var r' := Settle(r, h, e'); Registered(r'.all, r'.streams)
  {
    var r' := Settle(r, h, e');
    assert !r.all[h].Cleaned() ==> Live(r.all, h, r.all[h].Id());
    forall k: nat, id: nat | Live(r'.all, k, id)
      ensures id in r'.streams && r'.streams[id] == k
    {
      assert Live(r.all, k, id);
    }
    forall id | id in r'.streams
      ensures Live(r'.all, r'.streams[id], id) && Ids.IsId(id)
    {
      assert Live(r.all, r.streams[id], id);
    }
  }

  lemma SettleAccounted(r: Relay, h: nat, e': Entry)
    requires Accounted(r.all, r.books) && h < |r.all| && Follows(RecordAt(r.all, h), e')
    ensures var r' := Settle(r, h, e'); Accounted(r'.all, r'.books)
  {
    hide Settled;
    SettleBooks(r, h, e');
    var r' := Settle(r, h, e');
    forall p ensures At(r'.books.agentCount, p) == Owing(r'.all, p, true)
    {
      OwingUpdate(r.all, h, e', p, true);
      if Owes(r.all[h], p, true) { OwingPositive(r.all, h, p, true); }
    }
    forall p ensures At(r'.books.directCount, p) == Owing(r'.all, p, false)
    {
      OwingUpdate(r.all, h, e', p, false);
      if Owes(r.all[h], p, false) { OwingPositive(r.all, h, p, false); }
    }
  }

  /** A cleaned record needs no exemption any more. */
  function Reached(exempt: set<nat>, h: nat, e': Entry): set<nat> {
    if e'.Cleaned() then exempt - {h} else exempt
  }

  lemma SameRecords(all: seq<Entry>, all': seq<Entry>, a: nat, id: nat)
    requires |all| == |all'| && forall h :: 0 <= h < |all| ==> (Bears(all[h], a, id) <==> Bears(all'[h], a, id))
    ensures forall h: nat :: Newest(all, h, a, id) <==> Newest(all', h, a, id)
  {
  }

  /** There is at most one newest record. */
  lemma NewestUnique(all: seq<Entry>, g: nat, h: nat, a: nat, id: nat)
    requires Newest(all, g, a, id) && Newest(all, h, a, id)
    ensures g == h
  {
  }

  /** A live record is the newest of its id. */
  lemma LiveIsNewest(all: seq<Entry>, h: nat, a: nat)
    requires Succeeded(all) && LiveOf(all, h, a)
    ensures Newest(all, h, a, all[h].Id())
  {
  }

  /** The set of agent a and its record under this id, before and after the step. */
  lemma SettleSet(r: Relay, h: nat, e': Entry, a: nat, id: nat)
    requires h < |r.all| && Follows(RecordAt(r.all, h), e') && Succeeded(r.all) && a in r.books.agentStreams
    requires id in r.books.agentStreams[a] <==> NewestOwes(r.all, a, id)
    ensures var r' := Settle(r, h, e');
            a in r'.books.agentStreams && (id in r'.books.agentStreams[a] <==> NewestOwes(r'.all, a, id))
  {
    hide Settled;
    SettleBooks(r, h, e');
    var r' := Settle(r, h, e');
    SameRecords(r.all, r'.all, a, id);
    if Bears(r.all[h], a, id) && Released(r.all[h], e') {
      LiveIsNewest(r.all, h, a);
      forall k: nat ensures Newest(r.all, k, a, id) ==> k == h {
        if Newest(r.all, k, a, id) { NewestUnique(r.all, k, h, a, id); }
      }
    } else {
      forall k: nat ensures OwesLast(r.all, k, a, id) <==> OwesLast(r'.all, k, a, id) { }
    }
  }

  lemma SettleOwned(r: Relay, exempt: set<nat>, h: nat, e': Entry)
    requires Registered(r.all, r.streams) && Owned(r.all, r.books, exempt) && h < |r.all| && Follows(RecordAt(r.all, h), e')
    ensures var r' := Settle(r, h, e'); Owned(r'.all, r'.books, Reached(exempt, h, e'))
  {
    hide Settled, NewestOwes;
    SettleBooks(r, h, e');
    var r' := Settle(r, h, e');
    forall k: nat, a: nat | LiveOf(r'.all, k, a) && k !in Reached(exempt, h, e')
      ensures a in r'.books.agentStreams
    {
      assert LiveOf(r.all, k, a);
    }
    forall a, id | a in r'.books.agentStreams
      ensures id in r'.books.agentStreams[a] <==> NewestOwes(r'.all, a, id)
    {
      SettleSet(r, h, e', a, id);
    }
  }

  lemma SettleRest(r: Relay, cfg: Config, exempt: set<nat>, h: nat, e': Entry)
    requires h < |r.all| && Follows(RecordAt(r.all, h), e') && EntryOk(r.reg, cfg, e')
    requires NoOrphans(r.all, r.reg, exempt) && Known(r.all, r.reg) && EntriesOk(r.all, r.reg, cfg)
    ensures var r' := Settle(r, h, e');
            NoOrphans(r'.all, r'.reg, Reached(exempt, h, e')) && Known(r'.all, r'.reg) && EntriesOk(r'.all, r'.reg, cfg)
  {
    hide EntryOk;
  }

  lemma SettleBounded(r: Relay, cfg: Config, h: nat, e': Entry)
    requires Bounded(r.streams, r.books, r.reg, cfg) && h < |r.all| && Follows(RecordAt(r.all, h), e')
    ensures var r' := Settle(r, h, e'); Bounded(r'.streams, r'.books, r'.reg, cfg)
  {
    hide Settled;
    SettleBooks(r, h, e');
    var r' := Settle(r, h, e');
    SubMapSize(r.streams, r.all[h].Id());
    forall p
      ensures At(r'.books.agentCount, p) <= At(r.books.agentCount, p)
      ensures At(r'.books.directCount, p) <= At(r.books.directCount, p)
    {
    }
    if Released(r.all[h], e') && r.all[h].t.ident.peer.Agent? {
      var a := r.all[h].t.ident.peer.ws;
      if a in r.books.agentStreams {
        Ids.SubsetSize(r'.books.agentStreams[a], r.books.agentStreams[a]);
      }
    }
  }

  lemma SubMapSize(m: map<nat, nat>, k: nat)
    ensures |m - {k}| <= |m|
  {
    assert (m - {k}).Keys <= m.Keys;
    Ids.SubsetSize((m - {k}).Keys, m.Keys);
    assert |m.Keys| == |m| && |(m - {k}).Keys| == |m - {k}|;
  }

  lemma SettleInv(r: Relay, cfg: Config, exempt: set<nat>, h: nat, e': Entry)
    requires InvBut(r, cfg, exempt) && h < |r.all| && Follows(RecordAt(r.all, h), e') && EntryOk(r.reg, cfg, e')
    ensures InvBut(Settle(r, h, e'), cfg, Reached(exempt, h, e'))
  {
    hide EntryOk, Registered, Accounted, Owned, NoOrphans, Bounded, Indexed, Known, EntriesOk, Follows, Reached;
    Clauses(r, cfg, exempt);
    SettleRegistered(r, h, e');
    SettleAccounted(r, h, e');
    SettleOwned(r, exempt, h, e');
    SettleBounded(r, cfg, h, e');
    SettleRest(r, cfg, exempt, h, e');
    Clauses(Settle(r, h, e'), cfg, Reached(exempt, h, e'));
  }

  // ---------------------------------------------------------------------------
  // One stream takes a step
  // ---------------------------------------------------------------------------

  /** A TCP record that stays within its own invariant is fine for the relay too. */
  lemma TcpFits(r: Relay, cfg: Config, rd: Readings, t: S.Stream, t': S.Stream)
    requires SI.Inv(t', EnvOf(r, cfg, rd, t.ident)) && SI.Grows(t, t')
    ensures EntryOk(r.reg, cfg, Tcp(t')) && Follows(Tcp(t), Tcp(t'))
  {
    SI.InvLater(t', EnvOf(r, cfg, rd, t.ident), Surroundings(r.reg, cfg, t'.ident));
  }

  lemma TcpReady(r: Relay, cfg: Config, rd: Readings, t: S.Stream)
    requires EntryOk(r.reg, cfg, Tcp(t))
    ensures SI.Inv(t, EnvOf(r, cfg, rd, t.ident))
  {
    SI.InvLater(t, Surroundings(r.reg, cfg, t.ident), EnvOf(r, cfg, rd, t.ident));
  }

  lemma SettleKeeps(r: Relay, cfg: Config, h: nat, e': Entry)
    requires Inv(r, cfg) && h < |r.all| && Follows(RecordAt(r.all, h), e') && EntryOk(r.reg, cfg, e')
    ensures Inv(Settle(r, h, e'), cfg)
  {
    hide SI.Inv, H.Inv, Settle, Registered, Accounted, Owned, NoOrphans, Bounded, Indexed, Known, EntriesOk, Follows,
         EntryOk;
    SettleInv(r, cfg, {}, h, e');
    assert {} - {h} == {};
  }

  lemma EntryAt(r: Relay, cfg: Config, h: nat)
    requires Inv(r, cfg) && h < |r.all|
    ensures EntryOk(r.reg, cfg, RecordAt(r.all, h))
  {
    hide SI.Inv, H.Inv;
    Clauses(r, cfg, {});
  }

  lemma Lookup(r: Relay, cfg: Config, id: nat)
    requires Inv(r, cfg) && id in r.streams
    ensures Live(r.all, At(r.streams, id), id)
  {
    hide SI.Inv, H.Inv;
    Clauses(r, cfg, {});
  }

  lemma FromClientInv(r: Relay, cfg: Config, rd: Readings, ws: nat, id: nat, f: Frame)
    requires Inv(r, cfg)
    ensures Inv(FromClient(r, cfg, rd, ws, id, f), cfg)
  {
    hide SI.Inv, H.Inv, SI.Grows, Settle, S.FromClient, H.FromClient, InvBut;
    if id in r.streams {
      Lookup(r, cfg, id);
      if r.all[r.streams[id]].Ws() == ws {
        var h := r.streams[id];
        EntryAt(r, cfg, h);
        match r.all[h]
        case Tcp(t) => TcpStepInv(r, cfg, rd, h, S.FromClient(t, EnvOf(r, cfg, rd, t.ident), f)) by {
          TcpReady(r, cfg, rd, t);
          SI.FromClientInv(t, EnvOf(r, cfg, rd, t.ident), f);
        }
        case Web(w) =>
          var e := WebEnvOf(r, rd, ws);
          H.FromClientInv(w, e, f);
          H.FromClientFollows(w, e, f);
          SettleKeeps(r, cfg, h, Web(H.FromClient(w, e, f)));
      }
    }
  }

  lemma TcpStepInv(r: Relay, cfg: Config, rd: Readings, h: nat, t': S.Stream)
    requires Inv(r, cfg) && IsTcp(r.all, h)
    requires SI.Inv(t', EnvOf(r, cfg, rd, TcpAt(r.all, h).ident)) && SI.Grows(TcpAt(r.all, h), t')
    ensures Inv(Settle(r, h, Tcp(t')), cfg)
  {
    hide InvBut, Settle;
    TcpFits(r, cfg, rd, r.all[h].t, t');
    SettleKeeps(r, cfg, h, Tcp(t'));
  }

  lemma StreamEventInv(r: Relay, cfg: Config, rd: Readings, h: nat, ev: S.Local)
    requires Inv(r, cfg) && Enabled(r, cfg, rd, StreamEvent(h, ev))
    ensures Inv(Step(r, cfg, rd, StreamEvent(h, ev)), cfg)
  {
    hide SI.Inv, H.Inv, SI.Grows, Settle, S.OnLocal, InvBut;
    var t := r.all[h].t;
    EntryAt(r, cfg, h);
    TcpReady(r, cfg, rd, t);
    SI.OnLocalInv(t, EnvOf(r, cfg, rd, t.ident), ev);
    TcpStepInv(r, cfg, rd, h, S.OnLocal(t, EnvOf(r, cfg, rd, t.ident), ev));
  }

  lemma WebEventInv(r: Relay, cfg: Config, rd: Readings, h: nat, ev: H.Local)
    requires Inv(r, cfg) && Enabled(r, cfg, rd, WebEvent(h, ev))
    ensures Inv(Step(r, cfg, rd, WebEvent(h, ev)), cfg)
  {
    hide SI.Inv, H.Inv, SI.Grows, Settle, H.OnLocal, InvBut;
    var w := r.all[h].h;
    var e := WebEnvOf(r, rd, w.ws);
    EntryAt(r, cfg, h);
    H.OnLocalInv(w, e, ev);
    H.OnLocalFollows(w, e, ev);
    SettleKeeps(r, cfg, h, Web(H.OnLocal(w, e, ev)));
  }

  // ---------------------------------------------------------------------------
  // Opening a stream
  // ---------------------------------------------------------------------------

  /** A record that may be registered under a new id. */
  ghost predicate Openable(r: Relay, cfg: Config, id: nat, e: Entry) {
    && Ids.IsId(id) && id !in r.streams && e.Id() == id && !e.Cleaned()
    && e.Ws() in r.reg.clients && EntryOk(r.reg, cfg, e)
    && |r.streams| < cfg.maxStreams
    && (e.Tcp? ==> e.t.cleanups == 0)
    && (e.Tcp? && e.t.ident.peer.External? ==>
          cfg.directPortLimit > 0 ==> At(r.books.directCount, e.t.ident.serverPort) < cfg.directPortLimit)
    && (e.Tcp? && e.t.ident.peer.Agent? ==>
          && e.t.ident.peer.ws in r.books.agentStreams
          && (cfg.agentPortLimit > 0 ==> At(r.books.agentCount, e.t.ident.serverPort) < cfg.agentPortLimit)
          && (cfg.agentStreamLimit > 0 ==> |r.books.agentStreams[e.t.ident.peer.ws]| < cfg.agentStreamLimit))
  }

  lemma RegisterRegistered(r: Relay, id: nat, e: Entry)
    requires Registered(r.all, r.streams) && Ids.IsId(id) && id !in r.streams && e.Id() == id && !e.Cleaned()
    ensures var r' := Register(r, id, e); Registered(r'.all, r'.streams)
  {
    var r' := Register(r, id, e);
    forall k: nat, i: nat | Live(r'.all, k, i)
      ensures i in r'.streams && r'.streams[i] == k
    {
      if k < |r.all| { assert Live(r.all, k, i); }
    }
    forall i | i in r'.streams
      ensures Live(r'.all, r'.streams[i], i) && Ids.IsId(i)
    {
      if i != id { assert Live(r.all, r.streams[i], i); }
    }
  }

  lemma RegisterAccounted(r: Relay, id: nat, e: Entry)
    requires Accounted(r.all, r.books) && (e.Tcp? ==> e.t.cleanups == 0)
    ensures var r' := Register(r, id, e); Accounted(r'.all, r'.books)
  {
    var r' := Register(r, id, e);
    forall p ensures At(r'.books.agentCount, p) == Owing(r'.all, p, true) { OwingAppend(r.all, e, p, true); }
    forall p ensures At(r'.books.directCount, p) == Owing(r'.all, p, false) { OwingAppend(r.all, e, p, false); }
  }

  lemma RegisterSet(r: Relay, id: nat, e: Entry, a: nat, i: nat)
    requires e.Id() == id && (e.Tcp? ==> e.t.cleanups == 0) && a in r.books.agentStreams
    requires i in r.books.agentStreams[a] <==> NewestOwes(r.all, a, i)
    ensures var r' := Register(r, id, e);
            a in r'.books.agentStreams && (i in r'.books.agentStreams[a] <==> NewestOwes(r'.all, a, i))
  {
    var r' := Register(r, id, e);
    if Bears(e, a, i) {
      assert OwesLast(r'.all, |r.all|, a, i);
    } else {
      forall k: nat ensures OwesLast(r.all, k, a, i) <==> OwesLast(r'.all, k, a, i) {
        assert forall j :: 0 <= j < |r.all| ==> r'.all[j] == r.all[j];
      }
    }
  }

  lemma RegisterOwned(r: Relay, id: nat, e: Entry)
    requires Registered(r.all, r.streams) && id !in r.streams
    requires Owned(r.all, r.books, {}) && e.Id() == id && !e.Cleaned() && (e.Tcp? ==> e.t.cleanups == 0)
    requires e.Tcp? && e.t.ident.peer.Agent? ==> e.t.ident.peer.ws in r.books.agentStreams
    ensures var r' := Register(r, id, e); Owned(r'.all, r'.books, {})
  {
    hide NewestOwes;
    var r' := Register(r, id, e);
    forall k: nat, a: nat | LiveOf(r'.all, k, a)
      ensures a in r'.books.agentStreams
    {
      if k < |r.all| { assert LiveOf(r.all, k, a); }
    }
    forall a, i | a in r'.books.agentStreams
      ensures i in r'.books.agentStreams[a] <==> NewestOwes(r'.all, a, i)
    {
      RegisterSet(r, id, e, a, i);
    }
    forall g, k | 0 <= g < k < |r'.all| && r'.all[g].Id() == r'.all[k].Id()
      ensures r'.all[g].Cleaned()
    {
      assert k == |r.all| ==> !Live(r.all, g, id);
    }
  }

  lemma RegisterBounded(r: Relay, cfg: Config, id: nat, e: Entry)
    requires Bounded(r.streams, r.books, r.reg, cfg) && Openable(r, cfg, id, e)
    ensures var r' := Register(r, id, e); Bounded(r'.streams, r'.books, r'.reg, cfg)
  {
    hide SI.Inv, H.Inv;
    var r' := Register(r, id, e);
    forall p
      ensures cfg.agentPortLimit > 0 ==> At(r'.books.agentCount, p) <= cfg.agentPortLimit
      ensures cfg.directPortLimit > 0 ==> At(r'.books.directCount, p) <= cfg.directPortLimit
    {
      assert cfg.agentPortLimit > 0 ==> At(r.books.agentCount, p) <= cfg.agentPortLimit;
      assert cfg.directPortLimit > 0 ==> At(r.books.directCount, p) <= cfg.directPortLimit;
    }
  }

  lemma RegisterRest(r: Relay, cfg: Config, id: nat, e: Entry)
    requires NoOrphans(r.all, r.reg, {}) && Known(r.all, r.reg) && EntriesOk(r.all, r.reg, cfg) && Indexed(r.reg)
    requires e.Ws() in r.reg.clients && EntryOk(r.reg, cfg, e)
    ensures var r' := Register(r, id, e);
            r'.reg == r.reg && NoOrphans(r'.all, r'.reg, {}) && Known(r'.all, r'.reg) && EntriesOk(r'.all, r'.reg, cfg)
  {
    hide EntryOk;
  }

  lemma RegisterInv(r: Relay, cfg: Config, id: nat, e: Entry)
    requires Inv(r, cfg) && Openable(r, cfg, id, e)
    ensures Inv(Register(r, id, e), cfg)
  {
    hide EntryOk, Registered, Accounted, Owned, Bounded, Indexed, NoOrphans, Known, EntriesOk, Register;
    Clauses(r, cfg, {});
    RegisterRest(r, cfg, id, e);
    RegisterRegistered(r, id, e);
    RegisterAccounted(r, id, e);
    RegisterOwned(r, id, e);
    RegisterBounded(r, cfg, id, e);
    Clauses(Register(r, id, e), cfg, {});
  }

  /** The relay's record of a freshly opened TCP stream is fine. */
  lemma OpenTcpOk(r: Relay, cfg: Config, rd: Readings, id: nat, ws: nat, peer: S.Peer, port: int, requestId: nat, target: string)
    requires ws in r.reg.openClients
    ensures var e := OpenTcp(r, cfg, rd, id, ws, peer, port, requestId, target);
            && EntryOk(r.reg, cfg, e) && e.Tcp? && e.t.cleanups == 0 && !e.t.cleaned
            && e.t.ident == S.Identity(id, ws, peer, port, requestId, target)
  {
    var i := S.Identity(id, ws, peer, port, requestId, target);
    SI.OpenedInv(id, ws, peer, port, requestId, target, cfg.host, EnvOf(r, cfg, rd, i));
    var e := OpenTcp(r, cfg, rd, id, ws, peer, port, requestId, target);
    SI.InvLater(e.t, EnvOf(r, cfg, rd, i), Surroundings(r.reg, cfg, i));
  }

  /** No limit stands in the way of a stream of agent a on this port. */
  predicate RoomFor(r: Relay, cfg: Config, a: nat, port: int) {
    && (cfg.agentPortLimit > 0 ==> At(r.books.agentCount, port) < cfg.agentPortLimit)
    && (cfg.agentStreamLimit > 0 ==> |OwnedBy(r.books, a)| < cfg.agentStreamLimit)
    && |r.streams| < cfg.maxStreams
  }

  /** A connect request that passes every check leads to a record that may be registered. */
  lemma ConnectOpens(r: Relay, cfg: Config, rd: Readings, a: nat, port: int, requestId: nat, target: string, c: (nat, string),
      id: nat)
    requires Inv(r, cfg) && a in r.books.agentStreams && RoomFor(r, cfg, a, port)
    requires Resolve(r.reg, target) == Some(c) && Ids.Allocate(r.streams.Keys, r.nextId) == Some(id)
    ensures Inv(Register(r, id, OpenTcp(r, cfg, rd, id, c.0, S.Agent(a), port, requestId, c.1)), cfg)
  {
    hide SI.Inv, H.Inv, OpenTcp, Register, Owing, Owned, Accounted, NoOrphans, Resolve, EntryOk, Known, EntriesOk,
         Bounded;
    Clauses(r, cfg, {});
    ResolveOk(r.reg, target);
    OpenTcpOk(r, cfg, rd, id, c.0, S.Agent(a), port, requestId, c.1);
    RegisterInv(r, cfg, id, OpenTcp(r, cfg, rd, id, c.0, S.Agent(a), port, requestId, c.1));
  }

  lemma ConnectInv(r: Relay, cfg: Config, rd: Readings, a: nat, q: ConnectRequest)
    requires Inv(r, cfg) && a in r.books.agentStreams
    ensures Inv(Connect(r, cfg, rd, a, q), cfg)
  {
    hide OpenTcp, Register, Reject, RejectBody, Resolve, TunnelId.Normalize, Ids.Allocate;
    var n := TunnelId.Normalize(q.target);
    if n.None? {
      RejectInv(r, cfg, a, ConnectReply(q.port, q.requestId, ""));
    } else {
      RejectInv(r, cfg, a, RejectBody(q, n.value));
      var c, id := Resolve(r.reg, n.value), Ids.Allocate(r.streams.Keys, r.nextId);
      if q.port.Some? && c.Some? && id.Some? && RoomFor(r, cfg, a, q.port.value) {
        ConnectOpens(r, cfg, rd, a, q.port.value, q.requestId, n.value, c.value, id.value);
      }
    }
  }

  lemma AcceptDirectInv(r: Relay, cfg: Config, rd: Readings, port: int, ipAllowed: bool)
    requires Inv(r, cfg)
    ensures Inv(AcceptDirect(r, cfg, rd, port, ipAllowed), cfg)
  {
    hide SI.Inv, H.Inv, OpenTcp, Register, Owing, Owned, Accounted, NoOrphans, Live;
    Clauses(r, cfg, {});
    LeastLoadedOk(r.reg.clients, r.reg.openClients, rd.load);
    var ws := LeastLoaded(r.reg.clients, r.reg.openClients, rd.load);
    var id := Ids.Allocate(r.streams.Keys, r.nextId);
    if ws.Some? && id.Some? && |r.streams| < cfg.maxStreams {
      OpenTcpOk(r, cfg, rd, id.value, ws.value, S.External, port, 0, "");
      var e := OpenTcp(r, cfg, rd, id.value, ws.value, S.External, port, 0, "");
      if Openable(r, cfg, id.value, e) { RegisterInv(r, cfg, id.value, e); }
    }
  }

  lemma AcceptWebInv(r: Relay, cfg: Config, rd: Readings)
    requires Inv(r, cfg)
    ensures Inv(AcceptWeb(r, cfg, rd), cfg)
  {
    hide SI.Inv, H.Inv, Register, Owing, Owned, Accounted, NoOrphans, Live;
    Clauses(r, cfg, {});
    LeastLoadedOk(r.reg.clients, r.reg.openClients, rd.load);
    var ws := LeastLoaded(r.reg.clients, r.reg.openClients, rd.load);
    var id := Ids.Allocate(r.streams.Keys, r.nextId);
    if ws.Some? && id.Some? && |r.streams| < cfg.maxStreams {
      H.CreatedInv(id.value, ws.value);
      RegisterInv(r, cfg, id.value, Web(H.Created(id.value, ws.value)));
    }
  }

  lemma FromAgentInv(r: Relay, cfg: Config, rd: Readings, a: nat, id: nat, f: Frame)
    requires Inv(r, cfg) && Enabled(r, cfg, rd, AgentSends(a, id, f))
    ensures Inv(FromAgent(r, cfg, rd, a, id, f), cfg)
  {
    hide SI.Inv, H.Inv, SI.Grows, Settle, S.FromAgent, Connect, Registered, Owned, Accounted, NoOrphans, Bounded,
         Indexed, Known, EntriesOk;
    if f.TcpConnect? {
      if id == 0 { ConnectInv(r, cfg, rd, a, f.request); } else { StrayInv(r, cfg, a, id); }
    } else if id in r.streams {
      Lookup(r, cfg, id);
      var h := r.streams[id];
      StrayInv(r, cfg, a, id);
      if r.all[h].Tcp? && r.all[h].t.ident.peer == S.Agent(a) {
        var t := r.all[h].t;
        EntryAt(r, cfg, h);
        TcpReady(r, cfg, rd, t);
        SI.FromAgentInv(t, EnvOf(r, cfg, rd, t.ident), f);
        TcpStepInv(r, cfg, rd, h, S.FromAgent(t, EnvOf(r, cfg, rd, t.ident), f));
      }
    } else {
      StrayInv(r, cfg, a, id);
    }
  }

  /** Replies to agents are outside the invariant. */
  lemma RepliesInv(r: Relay, cfg: Config, sent: Sent)
    requires Inv(r, cfg)
    ensures Inv(r.(sent := sent), cfg)
  {
    hide SI.Inv, H.Inv;
    Clauses(r, cfg, {});
    Clauses(r.(sent := sent), cfg, {});
  }

  lemma StrayInv(r: Relay, cfg: Config, a: nat, id: nat)
    requires Inv(r, cfg)
    ensures Inv(Stray(r, a, id), cfg)
  {
    hide InvBut;
    RepliesInv(r, cfg, Stray(r, a, id).sent);
  }

  lemma RejectInv(r: Relay, cfg: Config, a: nat, reply: ConnectReply)
    requires Inv(r, cfg)
    ensures Inv(Reject(r, a, reply), cfg)
  {
    hide InvBut;
    RepliesInv(r, cfg, Reject(r, a, reply).sent);
  }

  // ---------------------------------------------------------------------------
  // Joining and leaving
  // ---------------------------------------------------------------------------

  /** No WebSocket a record names becomes OPEN. */
  ghost predicate OnlyCloses(all: seq<Entry>, reg: Registry, reg': Registry) {
    && (forall h :: 0 <= h < |all| && all[h].Ws() in reg'.openClients ==> all[h].Ws() in reg.openClients)
    && (forall h :: 0 <= h < |all| && all[h].Tcp? && all[h].t.ident.peer.Agent? && all[h].t.ident.peer.ws in reg'.openAgents
                    ==> all[h].t.ident.peer.ws in reg.openAgents)
  }

  lemma EntriesReg(all: seq<Entry>, cfg: Config, reg: Registry, reg': Registry)
    requires EntriesOk(all, reg, cfg) && OnlyCloses(all, reg, reg')
    ensures EntriesOk(all, reg', cfg)
  {
    hide SI.Inv, H.Inv;
    forall h | 0 <= h < |all| ensures EntryOk(reg', cfg, all[h]) {
      assert EntryOk(reg, cfg, all[h]);
      match all[h]
      case Tcp(t) => SI.InvLater(t, Surroundings(reg, cfg, t.ident), Surroundings(reg', cfg, t.ident));
      case Web(w) => H.InvCloses(w, w.ws in reg.openClients, w.ws in reg'.openClients);
    }
  }

  lemma ClosingInv(r: Relay, cfg: Config, openClients: set<nat>, openAgents: set<nat>)
    requires Inv(r, cfg) && openClients <= r.reg.openClients && openAgents <= r.reg.openAgents
    ensures Inv(r.(reg := r.reg.(openClients := openClients, openAgents := openAgents)), cfg)
  {
    hide EntriesOk, Registered, Accounted, Owned;
    Clauses(r, cfg, {});
    var reg' := r.reg.(openClients := openClients, openAgents := openAgents);
    EntriesReg(r.all, cfg, r.reg, reg');
    assert forall ws :: TunnelOf(reg', ws) == TunnelOf(r.reg, ws);
    Clauses(r.(reg := reg'), cfg, {});
  }

  lemma AddClientInv(r: Relay, cfg: Config, ws: nat, tunnelId: string)
    requires Inv(r, cfg) && ws !in r.reg.tunnelOf && ws !in r.reg.openClients
    ensures Inv(r.(reg := AddClient(r.reg, cfg.maxClients, ws, tunnelId)), cfg)
  {
    hide EntriesOk, Registered, Accounted, Owned, Indexed, TunnelId.Normalize;
    Clauses(r, cfg, {});
    EntriesReg(r.all, cfg, r.reg, AddClient(r.reg, cfg.maxClients, ws, tunnelId));
    AddClientIndexed(r.reg, cfg.maxClients, ws, tunnelId);
    Clauses(r.(reg := AddClient(r.reg, cfg.maxClients, ws, tunnelId)), cfg, {});
  }

  lemma BooksWithNewAgent(all: seq<Entry>, b: Books, a: nat)
    requires Accounted(all, b) && Owned(all, b, {}) && a !in b.agentStreams
    requires NeverServed(all, a)
    ensures var b' := b.(agentStreams := b.agentStreams[a := {}]); Accounted(all, b') && Owned(all, b', {})
  {
    hide Owing;
  }

  lemma IndexedAgents(reg: Registry, openAgents: set<nat>)
    requires Indexed(reg)
    ensures Indexed(reg.(openAgents := openAgents))
  {
    assert forall ws :: TunnelOf(reg.(openAgents := openAgents), ws) == TunnelOf(reg, ws);
  }

  lemma AgentJoinsInv(r: Relay, cfg: Config, a: nat)
    requires Inv(r, cfg) && a !in r.books.agentStreams && a !in r.reg.openAgents
    requires NeverServed(r.all, a)
    ensures var books' := r.books.(agentStreams := r.books.agentStreams[a := {}]);
            var reg' := r.reg.(openAgents := r.reg.openAgents + {a});
            Inv(r.(books := books', reg := reg'), cfg)
  {
    hide EntriesOk, Registered, Accounted, Owned, Indexed;
    Clauses(r, cfg, {});
    EntriesReg(r.all, cfg, r.reg, r.reg.(openAgents := r.reg.openAgents + {a}));
    BooksWithNewAgent(r.all, r.books, a);
    IndexedAgents(r.reg, r.reg.openAgents + {a});
    Clauses(r.(books := r.books.(agentStreams := r.books.agentStreams[a := {}]), reg := r.reg.(openAgents := r.reg.openAgents + {a})), cfg, {});
  }

  /** Once ws is forgotten, exactly the live streams that ran over it are still to be torn down. */
  lemma ForgetClientInv(r: Relay, cfg: Config, ws: nat)
    requires Inv(r, cfg) && ws !in r.reg.openClients
    ensures InvBut(r.(reg := ForgetClient(r.reg, ws)), cfg, Marked(r.all, OfClient(ws), 0))
  {
    hide EntriesOk, Registered, Accounted, Indexed;
    Clauses(r, cfg, {});
    WithoutOk(r.reg.clients, ws);
    EntriesReg(r.all, cfg, r.reg, ForgetClient(r.reg, ws));
    ForgetClientIndexed(r.reg, ws);
    Clauses(r.(reg := ForgetClient(r.reg, ws)), cfg, Marked(r.all, OfClient(ws), 0));
  }

  predicate Matches(e: Entry, who: Victims) {
    match who
    case OfClient(ws) => e.Ws() == ws
    case OfIds(ids) => e.Tcp? && e.Id() in ids
  }

  /** The records from handle h on that a teardown is after. */
  function Marked(all: seq<Entry>, who: Victims, h: nat): set<nat> {
    set k | h <= k < |all| && Matches(all[k], who)
  }

  /** A client whose streams are torn down is no longer OPEN. */
  predicate Departed(who: Victims, reg: Registry) {
    match who
    case OfClient(ws) => ws !in reg.openClients
    case OfIds(_) => true
  }

  lemma AbortedOk(r: Relay, cfg: Config, rd: Readings, h: nat, notify: bool)
    requires var e := RecordAt(r.all, h); EntryOk(r.reg, cfg, e) && (notify || e.Ws() !in r.reg.openClients)
    ensures var e, e' := RecordAt(r.all, h), Aborted(r, cfg, rd, RecordAt(r.all, h), notify);
            EntryOk(r.reg, cfg, e') && Follows(e, e') && e'.Cleaned()
  {
    hide SI.Inv, H.Inv, S.Abort, H.Abort;
    match RecordAt(r.all, h)
    case Tcp(t) =>
      TcpReady(r, cfg, rd, t);
      SI.TeardownInv(t, EnvOf(r, cfg, rd, t.ident), notify);
      TcpFits(r, cfg, rd, t, S.Abort(t, EnvOf(r, cfg, rd, t.ident), notify));
    case Web(w) =>
      H.AbortInv(w, WebEnvOf(r, rd, w.ws), notify);
      H.AbortFollows(w, WebEnvOf(r, rd, w.ws), notify);
  }

  lemma EntryOf(r: Relay, cfg: Config, exempt: set<nat>, h: nat)
    requires InvBut(r, cfg, exempt) && h < |r.all|
    ensures EntryOk(r.reg, cfg, RecordAt(r.all, h))
  {
    hide EntryOk;
    Clauses(r, cfg, exempt);
  }

  lemma SettleMarked(r: Relay, h: nat, e': Entry, who: Victims, exempt: set<nat>)
    requires h < |r.all| && Follows(RecordAt(r.all, h), e') && e'.Cleaned() && exempt <= Marked(r.all, who, h)
    ensures Reached(exempt, h, e') <= Marked(Settle(r, h, e').all, who, h + 1)
    ensures Settle(r, h, e').reg == r.reg && |Settle(r, h, e').all| == |r.all|
  {
  }

  /** A record the teardown skips needed no exemption. */
  lemma Unselected(r: Relay, cfg: Config, who: Victims, exempt: set<nat>, h: nat)
    requires InvBut(r, cfg, exempt) && h < |r.all| && !Selected(r, who, h) && exempt <= Marked(r.all, who, h)
    ensures InvBut(r, cfg, exempt - {h})
    ensures exempt - {h} <= Marked(r.all, who, h + 1)
  {
    hide EntryOk, Accounted, Bounded, Indexed, Known, EntriesOk;
    Clauses(r, cfg, exempt);
    assert !r.all[h].Cleaned() ==> Live(r.all, h, r.all[h].Id());
    assert LiveRecord(r.all, h) ==> h !in exempt;
    forall k: nat, a: nat | LiveOf(r.all, k, a) && k !in exempt - {h}
      ensures a in r.books.agentStreams
    {
      assert k !in exempt;
    }
    Clauses(r, cfg, exempt - {h});
  }

  predicate LiveRecord(all: seq<Entry>, h: nat) {
    h < |all| && !all[h].Cleaned()
  }

  lemma {:induction false} AbortAllInv(r: Relay, cfg: Config, rd: Readings, who: Victims, h: nat, exempt: set<nat>)
    requires InvBut(r, cfg, exempt) && exempt <= Marked(r.all, who, h)
    requires Departed(who, r.reg)
    ensures Inv(AbortAll(r, cfg, rd, who, h), cfg)
    decreases |r.all| - h
  {
    hide EntryOk, Registered, Accounted, Owned, NoOrphans, Bounded, Indexed, Known, EntriesOk, Follows, Settle,
         Aborted, Reached;
    if h >= |r.all| {
      assert exempt == {};
    } else {
      var e' := Aborted(r, cfg, rd, r.all[h], who.OfIds?);
      if Selected(r, who, h) {
        EntryOf(r, cfg, exempt, h);
        AbortedOk(r, cfg, rd, h, who.OfIds?);
        SettleInv(r, cfg, exempt, h, e');
        SettleMarked(r, h, e', who, exempt);
        AbortAllInv(Settle(r, h, e'), cfg, rd, who, h + 1, Reached(exempt, h, e'));
      } else {
        Unselected(r, cfg, who, exempt, h);
        AbortAllInv(r, cfg, rd, who, h + 1, exempt - {h});
      }
    }
  }

  lemma ClientLeavesInv(r: Relay, cfg: Config, rd: Readings, ws: nat)
    requires Inv(r, cfg) && ws !in r.reg.openClients
    ensures Inv(Leave(r, cfg, rd, ws), cfg)
  {
    hide InvBut, AbortAll;
    ForgetClientInv(r, cfg, ws);
    AbortAllInv(r.(reg := ForgetClient(r.reg, ws)), cfg, rd, OfClient(ws), 0, Marked(r.all, OfClient(ws), 0));
  }

  lemma LiveOwes(r: Relay, cfg: Config, h: nat)
    requires Inv(r, cfg) && IsTcp(r.all, h) && !TcpAt(r.all, h).cleaned
    ensures TcpAt(r.all, h).cleanups == 0
  {
    hide SI.Core, SI.LiveTalk, SI.LastTalk, H.Inv, Registered, Accounted, Owned, NoOrphans, Bounded, Indexed, Known;
    Clauses(r, cfg, {});
    assert EntryOk(r.reg, cfg, r.all[h]);
  }

  /** Once agent a is forgotten, its live streams are still to be torn down. */
  lemma OwnedWithout(all: seq<Entry>, b: Books, a: nat, exempt: set<nat>)
    requires Owned(all, b, {}) && forall h: nat :: LiveOf(all, h, a) ==> h in exempt
    ensures Owned(all, b.(agentStreams := b.agentStreams - {a}), exempt)
  {
    hide NewestOwes, Succeeded;
  }

  lemma AgentLeavesInv(r: Relay, cfg: Config, rd: Readings, a: nat)
    requires Inv(r, cfg) && a in r.books.agentStreams
    ensures Inv(Disown(r, cfg, rd, a), cfg)
  {
    hide EntryOk, AbortAll, Registered, NoOrphans, Indexed, Known, EntriesOk;
    Clauses(r, cfg, {});
    var who := OfIds(r.books.agentStreams[a]);
    var r1 := r.(books := r.books.(agentStreams := r.books.agentStreams - {a}));
    NoOrphansWeaken(r.all, r.reg, Marked(r.all, who, 0));
    forall h: nat | LiveOf(r.all, h, a) ensures h in Marked(r.all, who, 0) {
      LiveIsNewest(r.all, h, a);
      assert OwesLast(r.all, h, a, r.all[h].Id()) by { LiveOwes(r, cfg, h); }
    }
    OwnedWithout(r.all, r.books, a, Marked(r.all, who, 0));
    Clauses(r1, cfg, Marked(r.all, who, 0));
    AbortAllInv(r1, cfg, rd, who, 0, Marked(r.all, who, 0));
  }

  lemma NoOrphansWeaken(all: seq<Entry>, reg: Registry, exempt: set<nat>)
    requires NoOrphans(all, reg, {})
    ensures NoOrphans(all, reg, exempt)
  {
  }

  // ---------------------------------------------------------------------------
  // Every step, every run
  // ---------------------------------------------------------------------------

  lemma InitialInv(cfg: Config)
    ensures Inv(Initial(), cfg)
  {
    Clauses(Initial(), cfg, {});
  }

  /** No step of the relay breaks its invariant, whatever the clients and agents send. */
  lemma StepInv(r: Relay, cfg: Config, rd: Readings, ev: Event)
    requires Inv(r, cfg) && Enabled(r, cfg, rd, ev)
    ensures Inv(Step(r, cfg, rd, ev), cfg)
  {
    hide InvBut, AddClient, FromClient, FromAgent, AbortAll, AcceptDirect, AcceptWeb, Settle;
    match ev
    case ClientJoins(ws, tunnelId) => AddClientInv(r, cfg, ws, tunnelId);
    case ClientCloses(ws) => ClosingInv(r, cfg, r.reg.openClients - {ws}, r.reg.openAgents);
    case ClientLeaves(ws) => ClientLeavesInv(r, cfg, rd, ws);
    case AgentJoins(a) => AgentJoinsInv(r, cfg, a);
    case AgentCloses(a) => ClosingInv(r, cfg, r.reg.openClients, r.reg.openAgents - {a});
    case AgentLeaves(a) => if a in r.books.agentStreams { AgentLeavesInv(r, cfg, rd, a); }
    case ClientSends(ws, id, f) => FromClientInv(r, cfg, rd, ws, id, f);
    case AgentSends(a, id, f) => FromAgentInv(r, cfg, rd, a, id, f);
    case DirectConnection(port, ipAllowed) => AcceptDirectInv(r, cfg, rd, port, ipAllowed);
    case WebRequest => AcceptWebInv(r, cfg, rd);
    case StreamEvent(h, l) => StreamEventInv(r, cfg, rd, h, l);
    case WebEvent(h, l) => WebEventInv(r, cfg, rd, h, l);
  }
}
