/** One step of the relay, seen by one of its TCP streams. */
module RelayMoves {
  import opened Frames
  import opened Relay
  import opened RelayInvariant
  import CM = ClientManager
  import S = RelayStream
  import SI = RelayStreamInvariant
  import H = HttpStream
  import Ids = StreamIds
  import TunnelId

  /** The step hands a frame of a tunnel client to record h. */
  predicate FromItsClient(r: Relay, ev: Event, h: nat) {
    && h < |r.all| && ev.ClientSends? && ev.id in r.streams && r.streams[ev.id] == h && r.all[h].Ws() == ev.ws
  }

  /** The step hands a frame of its agent to record h. */
  predicate FromItsAgent(r: Relay, ev: Event, h: nat) {
    && h < |r.all| && ev.AgentSends? && !ev.f.TcpConnect? && ev.id in r.streams && r.streams[ev.id] == h
    && r.all[h].Tcp? && r.all[h].t.ident.peer == S.Agent(ev.a)
  }

  /** What the step makes of the TCP stream under handle h. */
  function Moved(r: Relay, cfg: Config, rd: Readings, ev: Event, h: nat): S.Stream {
    var t := TcpAt(r.all, h);
    var e := EnvOf(r, cfg, rd, t.ident);
    match ev
    case ClientLeaves(ws) => if t.ident.ws == ws then S.Abort(t, e, false) else t
    case AgentLeaves(a) => if t.ident.id in OwnedBy(r.books, a) then S.Abort(t, e, true) else t
    case ClientSends(_, _, f) => if FromItsClient(r, ev, h) then S.FromClient(t, e, f) else t
    case AgentSends(_, _, f) => if FromItsAgent(r, ev, h) then S.FromAgent(t, e, f) else t
    case StreamEvent(g, l) => if g == h then S.OnLocal(t, e, l) else t
    case _ => t
  }

  lemma AbortedFollows(r: Relay, cfg: Config, rd: Readings, h: nat, notify: bool)
    requires var e := RecordAt(r.all, h); !e.Cleaned() && (e.Tcp? ==> TcpAt(r.all, h).cleanups == 0)
    ensures h < |r.all| ==> Follows(RecordAt(r.all, h), Aborted(r, cfg, rd, RecordAt(r.all, h), notify))
  {
    hide S.ClientTalk, S.FarTalk, DataOf, H.Abort, S.Abort;
    match RecordAt(r.all, h)
    case Tcp(t) => AbortReleases(t, EnvOf(r, cfg, rd, t.ident), notify);
    case Web(w) => H.AbortFollows(w, WebEnvOf(r, rd, w.ws), notify);
  }

  /** An abort ends a live stream, and runs its onCleanup once more. */
  lemma AbortReleases(t: S.Stream, e: S.Env, notify: bool)
    requires !t.cleaned
    ensures var u := S.Abort(t, e, notify); u.cleaned && u.cleanups == t.cleanups + 1 && u.ident == t.ident && u.took == t.took
  {
    hide S.ClientTalk, S.FarTalk, DataOf;
  }

  /** Every live record's onCleanup is still owed. */
  ghost predicate AllOwe(all: seq<Entry>) {
    forall h :: 0 <= h < |all| && all[h].Tcp? && !all[h].t.cleaned ==> all[h].t.cleanups == 0
  }

  lemma AllOweOf(r: Relay, cfg: Config)
    requires Inv(r, cfg)
    ensures AllOwe(r.all) && Registered(r.all, r.streams)
  {
    hide InvBut;
    forall h | 0 <= h < |r.all| && r.all[h].Tcp? && !r.all[h].t.cleaned ensures r.all[h].t.cleanups == 0 {
      LiveOwes(r, cfg, h);
    }
    assert Registered(r.all, r.streams) by { RegisteredOf(r, cfg); }
  }

  lemma RegisteredOf(r: Relay, cfg: Config)
    requires Inv(r, cfg)
    ensures Registered(r.all, r.streams)
  {
    hide EntryOk;
    Clauses(r, cfg, {});
  }

  /** Aborting one more time changes nothing. */
  lemma AbortedGone(r: Relay, cfg: Config, rd: Readings, e: Entry, notify: bool)
    requires e.Cleaned()
    ensures Aborted(r, cfg, rd, e, notify) == e
  {
    hide S.ClientTalk, S.FarTalk, DataOf;
  }

  lemma SettleFrame(r: Relay, h: nat, e': Entry)
    ensures var r' := Settle(r, h, e'); |r'.all| == |r.all| && r'.reg == r.reg
    ensures h < |r.all| ==> Settle(r, h, e').all == r.all[h := e']
  {
  }

  /** A teardown aborts exactly the records it is after. */
  lemma {:induction false} AbortAllAt(r: Relay, cfg: Config, rd: Readings, who: Victims, k: nat, h: nat)
    requires Registered(r.all, r.streams) && AllOwe(r.all) && h < |r.all|
    ensures RecordAt(AbortAll(r, cfg, rd, who, k).all, h) ==
            if k <= h && Matches(RecordAt(r.all, h), who) then Aborted(r, cfg, rd, RecordAt(r.all, h), who.OfIds?) else RecordAt(r.all, h)
    ensures AbortAll(r, cfg, rd, who, k).reg == r.reg
    decreases |r.all| - k
  {
    hide S.Abort, H.Abort, Settle, Aborted, Registered;
    if k < |r.all| {
      var e' := Aborted(r, cfg, rd, r.all[k], who.OfIds?);
      SelectedIff(r, who, k);
      if Selected(r, who, k) {
        AbortedFollows(r, cfg, rd, k, who.OfIds?);
        SettleRegistered(r, k, e');
        SettleFrame(r, k, e');
        var r1 := Settle(r, k, e');
        AbortAllAt(r1, cfg, rd, who, k + 1, h);
        AbortedSame(r, r1, cfg, rd, r.all[h], who.OfIds?);
      } else {
        AbortAllAt(r, cfg, rd, who, k + 1, h);
        if Matches(r.all[k], who) { AbortedGone(r, cfg, rd, r.all[k], who.OfIds?); }
      }
    }
  }

  lemma SelectedIff(r: Relay, who: Victims, k: nat)
    requires Registered(r.all, r.streams) && k < |r.all|
    ensures Selected(r, who, k) <==> Matches(r.all[k], who) && !r.all[k].Cleaned()
  {
    assert Live(r.all, k, r.all[k].Id()) <==> !r.all[k].Cleaned();
  }

  lemma AbortedSame(r: Relay, r1: Relay, cfg: Config, rd: Readings, e: Entry, notify: bool)
    requires r1.reg == r.reg
    ensures Aborted(r1, cfg, rd, e, notify) == Aborted(r, cfg, rd, e, notify)
  {
    hide S.Abort, H.Abort;
  }

  /** A record that has just been made: nobody has been told anything but that it is open, and nobody is paused. */
  predicate Fresh(e: Entry) {
    !e.Cleaned() && if e.Tcp? then FreshTcp(e.t) else e.h == H.Created(e.h.id, e.h.ws)
  }

  predicate FreshTcp(t: S.Stream) {
    && t.sent.toFar == [] && TcpClose !in t.sent.toClient && DataOf(t.sent.toClient) == []
    && t.awaitingClientAck == t.ident.peer.Agent? && t.cleanups == 0
    && t.flow == S.Flow(false, false, false, false, false, 0) && t.sock == S.Socket(false, false, [], 0, false, false, false)
  }

  /** Records are only added, and those that were are fresh. */
  ghost predicate Opens(all: seq<Entry>, all': seq<Entry>) {
    all <= all' && forall h :: |all| <= h < |all'| ==> Fresh(all'[h])
  }

  lemma OpenTcpFresh(r: Relay, cfg: Config, rd: Readings, id: nat, ws: nat, peer: S.Peer, port: int, requestId: nat,
      target: string)
    ensures Fresh(OpenTcp(r, cfg, rd, id, ws, peer, port, requestId, target))
  {
    hide S.ClientTalk;
    assert DataOf([]) == [];
  }

  lemma ConnectAdds(r: Relay, cfg: Config, rd: Readings, a: nat, q: ConnectRequest)
    ensures Opens(r.all, Connect(r, cfg, rd, a, q).all)
  {
    hide CM.Resolve, TunnelId.Normalize, OpenTcp, Ids.Allocate, Fresh, Charge, RejectBody;
    var n := TunnelId.Normalize(q.target);
    if n.Some? && q.port.Some? {
      var c, id := CM.Resolve(r.reg, n.value), Ids.Allocate(r.streams.Keys, r.nextId);
      if c.Some? && id.Some? { OpenTcpFresh(r, cfg, rd, id.value, c.value.0, S.Agent(a), q.port.value, q.requestId, c.value.1); }
    }
  }

  lemma AcceptAdds(r: Relay, cfg: Config, rd: Readings, port: int, ok: bool)
    ensures Opens(r.all, AcceptDirect(r, cfg, rd, port, ok).all) && Opens(r.all, AcceptWeb(r, cfg, rd).all)
  {
    hide CM.LeastLoaded, OpenTcp, Ids.Allocate, Charge;
    var ws, id := CM.LeastLoaded(r.reg.clients, r.reg.openClients, rd.load), Ids.Allocate(r.streams.Keys, r.nextId);
    if ws.Some? && id.Some? { OpenTcpFresh(r, cfg, rd, id.value, ws.value, S.External, port, 0, ""); }
  }

  /** No step takes a record away, and the ones it adds are fresh. */
  lemma StepAdds(r: Relay, cfg: Config, rd: Readings, ev: Event, h: nat)
    ensures var all' := Step(r, cfg, rd, ev).all; |r.all| <= |all'| && (|r.all| <= h < |all'| ==> Fresh(RecordAt(all', h)))
  {
    hide S.FromClient, S.FromAgent, S.OnLocal, H.FromClient, H.OnLocal, CM.AddClient, CM.ForgetClient, Connect,
         AcceptDirect, AcceptWeb, AbortAll, Fresh, Settled;
    match ev
    case AgentSends(a, id, f) => if f.TcpConnect? { ConnectAdds(r, cfg, rd, a, f.request); }
    case DirectConnection(port, ok) => AcceptAdds(r, cfg, rd, port, ok);
    case WebRequest => AcceptAdds(r, cfg, rd, 0, true);
    case _ =>
  }

  lemma TeardownAt(r: Relay, cfg: Config, rd: Readings, ev: Event, h: nat)
    requires Inv(r, cfg) && Enabled(r, cfg, rd, ev) && (ev.ClientLeaves? || ev.AgentLeaves?) && IsTcp(r.all, h)
    ensures |Step(r, cfg, rd, ev).all| == |r.all| && RecordAt(Step(r, cfg, rd, ev).all, h) == Tcp(Moved(r, cfg, rd, ev, h))
  {
    hide S.Abort, H.Abort, InvBut, AbortAll;
    AllOweOf(r, cfg);
    match ev
    case ClientLeaves(ws) =>
      AbortAllAt(r.(reg := CM.ForgetClient(r.reg, ws)), cfg, rd, OfClient(ws), 0, h);
    case AgentLeaves(a) =>
      if a in r.books.agentStreams {
        AbortAllAt(r.(books := r.books.(agentStreams := r.books.agentStreams - {a})), cfg, rd, OfIds(r.books.agentStreams[a]), 0, h);
      }
    case _ =>
  }

  /** The HTTP record under handle h, where there is one. */
  function WebAt(all: seq<Entry>, h: nat): H.Http {
    match RecordAt(all, h)
    case Web(w) => w
    case Tcp(_) => H.Created(0, 0)
  }

  predicate IsWeb(all: seq<Entry>, h: nat) {
    h < |all| && all[h].Web?
  }

  /** What a step brings to the HTTP record under handle h, if anything. */
  function WebInput(r: Relay, ev: Event, h: nat): Option<H.Event> {
    match ev
    case ClientSends(_, _, f) => if FromItsClient(r, ev, h) then Some(H.Frame(f)) else None
    case WebEvent(g, l) => if g == h then Some(H.Happens(l)) else None
    case ClientLeaves(ws) => if WebAt(r.all, h).ws == ws then Some(H.Happens(H.ClientGone)) else None
    case _ => None
  }

  function WebMoved(w: H.Http, e: H.HttpEnv, i: Option<H.Event>): H.Http {
    match i
    case None => w
    case Some(ev) => H.Step(w, e, ev)
  }

  lemma WebTeardown(r: Relay, cfg: Config, rd: Readings, ev: Event, h: nat)
    requires Inv(r, cfg) && Enabled(r, cfg, rd, ev) && (ev.ClientLeaves? || ev.AgentLeaves?) && IsWeb(r.all, h)
    ensures var w := WebAt(r.all, h);
            |Step(r, cfg, rd, ev).all| == |r.all| &&
            RecordAt(Step(r, cfg, rd, ev).all, h) == Web(if ev == ClientLeaves(w.ws) then H.Abort(w, WebEnvOf(r, rd, w.ws), false) else w)
  {
    hide S.Abort, H.Abort, InvBut, AbortAll;
    AllOweOf(r, cfg);
    match ev
    case ClientLeaves(ws) =>
      AbortAllAt(r.(reg := CM.ForgetClient(r.reg, ws)), cfg, rd, OfClient(ws), 0, h);
    case AgentLeaves(a) =>
      if a in r.books.agentStreams {
        AbortAllAt(r.(books := r.books.(agentStreams := r.books.agentStreams - {a})), cfg, rd, OfIds(r.books.agentStreams[a]), 0, h);
      }
    case _ =>
  }

  /** The whole effect of a step on an HTTP stream: it moves only by its own frames and events, and when its client goes. */
  lemma WebStepMoved(r: Relay, cfg: Config, rd: Readings, ev: Event, h: nat)
    requires Inv(r, cfg) && Enabled(r, cfg, rd, ev) && IsWeb(r.all, h)
    ensures var w := WebAt(r.all, h);
            IsWeb(Step(r, cfg, rd, ev).all, h) && WebAt(Step(r, cfg, rd, ev).all, h) == WebMoved(w, WebEnvOf(r, rd, w.ws), WebInput(r, ev, h))
  {
    hide S.Abort, H.Abort, InvBut, AbortAll, S.FromClient, S.FromAgent, S.OnLocal, H.FromClient, Connect,
         AcceptDirect, AcceptWeb, Settle, CM.AddClient, CM.ForgetClient;
    match ev
    case ClientLeaves(_) => WebTeardown(r, cfg, rd, ev, h);
    case AgentLeaves(_) => WebTeardown(r, cfg, rd, ev, h);
    case ClientSends(ws, id, f) =>
      LiveUnderIds(r, cfg);
      if id in r.streams && r.streams[id] < |r.all| && r.all[r.streams[id]].Ws() == ws {
        match r.all[r.streams[id]]
        case Tcp(t) => SettleFrame(r, r.streams[id], Tcp(S.FromClient(t, EnvOf(r, cfg, rd, t.ident), f)));
        case Web(w) => SettleFrame(r, r.streams[id], Web(H.FromClient(w, WebEnvOf(r, rd, ws), f)));
      }
    case AgentSends(a, id, f) =>
      if f.TcpConnect? {
        if id == 0 { ConnectAdds(r, cfg, rd, a, f.request); }
      } else if id in r.streams && r.streams[id] < |r.all| && r.all[r.streams[id]].Tcp? {
        var t := r.all[r.streams[id]].t;
        SettleFrame(r, r.streams[id], Tcp(S.FromAgent(t, EnvOf(r, cfg, rd, t.ident), f)));
      }
    case DirectConnection(port, ok) => AcceptAdds(r, cfg, rd, port, ok);
    case WebRequest => AcceptAdds(r, cfg, rd, 0, true);
    case StreamEvent(g, l) => SettleFrame(r, g, Tcp(S.OnLocal(r.all[g].t, EnvOf(r, cfg, rd, r.all[g].t.ident), l)));
    case WebEvent(g, l) => SettleFrame(r, g, Web(H.OnLocal(r.all[g].h, WebEnvOf(r, rd, r.all[g].h.ws), l)));
    case _ =>
  }

  lemma LiveUnderIds(r: Relay, cfg: Config)
    requires Inv(r, cfg)
    ensures Registered(r.all, r.streams)
  {
    hide Registered;
    Clauses(r, cfg, {});
  }

  /** The whole effect of a step on a TCP stream. */
  lemma StepMoved(r: Relay, cfg: Config, rd: Readings, ev: Event, h: nat)
    requires Inv(r, cfg) && Enabled(r, cfg, rd, ev) && IsTcp(r.all, h)
    ensures h < |Step(r, cfg, rd, ev).all| && RecordAt(Step(r, cfg, rd, ev).all, h) == Tcp(Moved(r, cfg, rd, ev, h))
  {
    hide S.Abort, H.Abort, InvBut, AbortAll, S.FromClient, S.FromAgent, S.OnLocal, H.FromClient, H.OnLocal, Connect,
         AcceptDirect, AcceptWeb, Settle, CM.AddClient, CM.ForgetClient;
    match ev
    case ClientLeaves(_) => TeardownAt(r, cfg, rd, ev, h);
    case AgentLeaves(_) => TeardownAt(r, cfg, rd, ev, h);
    case ClientSends(ws, id, f) =>
      if id in r.streams && r.streams[id] < |r.all| && r.all[r.streams[id]].Ws() == ws {
        match r.all[r.streams[id]]
        case Tcp(t) => SettleFrame(r, r.streams[id], Tcp(S.FromClient(t, EnvOf(r, cfg, rd, t.ident), f)));
        case Web(w) => SettleFrame(r, r.streams[id], Web(H.FromClient(w, WebEnvOf(r, rd, ws), f)));
      }
    case AgentSends(a, id, f) =>
      if f.TcpConnect? {
        if id == 0 { ConnectAdds(r, cfg, rd, a, f.request); }
      } else if id in r.streams && r.streams[id] < |r.all| && r.all[r.streams[id]].Tcp? {
        var t := r.all[r.streams[id]].t;
        SettleFrame(r, r.streams[id], Tcp(S.FromAgent(t, EnvOf(r, cfg, rd, t.ident), f)));
      }
    case DirectConnection(port, ok) => AcceptAdds(r, cfg, rd, port, ok);
    case WebRequest => AcceptAdds(r, cfg, rd, 0, true);
    case StreamEvent(g, l) => SettleFrame(r, g, Tcp(S.OnLocal(r.all[g].t, EnvOf(r, cfg, rd, r.all[g].t.ident), l)));
    case WebEvent(g, l) => SettleFrame(r, g, Web(H.OnLocal(r.all[g].h, WebEnvOf(r, rd, r.all[g].h.ws), l)));
    case _ =>
  }

  // ---------------------------------------------------------------------------
  // What a frame leaves alone
  // ---------------------------------------------------------------------------

  /** Only the record under this id moves; the id leaves the map if that ends it, and the books stay unless it does. */
  predicate TouchesOne(r: Relay, r': Relay, id: nat) {
    && |r'.all| == |r.all| && r'.reg == r.reg && r'.nextId == r.nextId && r'.sent.rejections == r.sent.rejections
    && (forall g :: 0 <= g < |r.all| && !(id in r.streams && r.streams[id] == g) ==> r'.all[g] == r.all[g])
    && (r'.streams == r.streams || r'.streams == r.streams - {id})
    && (id in r.streams && r.streams[id] < |r.all| ==> (id in r'.streams <==> !r'.all[r.streams[id]].Cleaned()))
    && (r'.streams == r.streams ==> r'.books == r.books)
  }

  lemma SettleTouches(r: Relay, cfg: Config, id: nat, e': Entry)
    requires Inv(r, cfg) && id in r.streams && At(r.streams, id) < |r.all| && Follows(RecordAt(r.all, At(r.streams, id)), e')
    ensures TouchesOne(r, Settle(r, At(r.streams, id), e'), id)
  {
    hide InvBut, Settled, Release;
    var h := r.streams[id];
    Lookup(r, cfg, id);
    SettleBooks(r, h, e');
  }

  lemma SelfTouches(r: Relay, cfg: Config, id: nat)
    requires Inv(r, cfg)
    ensures TouchesOne(r, r, id)
  {
    hide InvBut;
    if id in r.streams { Lookup(r, cfg, id); }
  }

  /** The record a client's frame goes to, if any: by id and WebSocket identity. */
  predicate Addressed(r: Relay, ws: nat, id: nat) {
    id in r.streams && r.streams[id] < |r.all| && r.all[r.streams[id]].Ws() == ws
  }

  lemma ClientFrameTouches(r: Relay, cfg: Config, rd: Readings, ws: nat, id: nat, f: Frame)
    requires Inv(r, cfg)
    ensures TouchesOne(r, FromClient(r, cfg, rd, ws, id, f), id)
    ensures !Addressed(r, ws, id) ==> FromClient(r, cfg, rd, ws, id, f) == r
  {
    hide InvBut, S.FromClient, H.FromClient, Settle, TouchesOne, SI.Inv, H.Inv;
    if Addressed(r, ws, id) {
      var h := r.streams[id];
      Lookup(r, cfg, id);
      EntryAt(r, cfg, h);
      match r.all[h]
      case Tcp(t) =>
        TcpReady(r, cfg, rd, t);
        SI.FromClientInv(t, EnvOf(r, cfg, rd, t.ident), f);
        TcpFits(r, cfg, rd, t, S.FromClient(t, EnvOf(r, cfg, rd, t.ident), f));
        SettleTouches(r, cfg, id, Tcp(S.FromClient(t, EnvOf(r, cfg, rd, t.ident), f)));
      case Web(w) =>
        H.FromClientFollows(w, WebEnvOf(r, rd, ws), f);
        SettleTouches(r, cfg, id, Web(H.FromClient(w, WebEnvOf(r, rd, ws), f)));
    } else {
      SelfTouches(r, cfg, id);
    }
  }

  /** The stream an agent's frame goes to, if any. */
  predicate AddressedByAgent(r: Relay, a: nat, id: nat) {
    id in r.streams && r.streams[id] < |r.all| && r.all[r.streams[id]].Tcp? && r.all[r.streams[id]].t.ident.peer == S.Agent(a)
  }

  /** The id belongs to a stream of some agent. */
  predicate AgentsStream(r: Relay, id: nat) {
    id in r.streams && r.streams[id] < |r.all| && r.all[r.streams[id]].Tcp? && r.all[r.streams[id]].t.ident.peer.Agent?
  }

  /** Nothing happens but that an agent that is OPEN is sent one abort of this id. */
  predicate SendsStray(r: Relay, r': Relay, a: nat, id: nat) {
    && r' == r.(sent := r'.sent) && r'.sent.rejections == r.sent.rejections
    && r'.sent.strays == if a !in r.reg.openAgents then r.sent.strays
                         else r.sent.strays[a := (if a in r.sent.strays then r.sent.strays[a] else []) + [id]]
  }

  /**
   * A frame of an agent that is for no stream of its own: data or a close for an id that is no agent's stream, and
   * a TCP_CONNECT under a stream id, are answered with an abort of that id; anything else changes nothing.
   */
  lemma UnaddressedAnswers(r: Relay, cfg: Config, rd: Readings, a: nat, id: nat, f: Frame)
    requires if f.TcpConnect? then id != 0 else !AddressedByAgent(r, a, id)
    ensures var r' := FromAgent(r, cfg, rd, a, id, f);
            if f.TcpConnect? || ((f.TcpData? || f.TcpClose?) && !AgentsStream(r, id)) then SendsStray(r, r', a, id) else r' == r
  {
    hide S.FromAgent, Settle, Connect;
  }

  lemma AgentFrameTouches(r: Relay, cfg: Config, rd: Readings, a: nat, id: nat, f: Frame)
    requires Inv(r, cfg) && !f.TcpConnect?
    ensures TouchesOne(r, FromAgent(r, cfg, rd, a, id, f), id)
    ensures !AddressedByAgent(r, a, id) ==> FromAgent(r, cfg, rd, a, id, f) == r || FromAgent(r, cfg, rd, a, id, f) == Stray(r, a, id)
  {
    hide InvBut, S.FromAgent, Settle, SI.Inv, H.Inv, Connect;
    SelfTouches(r, cfg, id);
    if AddressedByAgent(r, a, id) {
      hide TouchesOne;
      var h := r.streams[id];
      var t := r.all[h].t;
      Lookup(r, cfg, id);
      EntryAt(r, cfg, h);
      TcpReady(r, cfg, rd, t);
      SI.FromAgentInv(t, EnvOf(r, cfg, rd, t.ident), f);
      TcpFits(r, cfg, rd, t, S.FromAgent(t, EnvOf(r, cfg, rd, t.ident), f));
      SettleTouches(r, cfg, id, Tcp(S.FromAgent(t, EnvOf(r, cfg, rd, t.ident), f)));
    }
  }
}
