/**
 * The relay's managers as one object: StreamManager's map and id counter, TcpRouter's and
 * TcpAgentServer's counters and sets, and the stream records, all updated in place, with the code's
 * probing and teardown loops. The records are the objects of RelayStreamObject and HttpStreamObject, so
 * what is proved of their re-entrant code carries over to the whole relay.
 */
module RelayObject {
  import opened Frames
  import opened Relay
  import RI = RelayInvariant
  import RM = RelayMoves
  import RD = RelayAdmission
  import CM = ClientManager
  import CMO = ClientManagerObject
  import S = RelayStream
  import SO = RelayStreamObject
  import H = HttpStream
  import HO = HttpStreamObject
  import Ids = StreamIds
  import TunnelId

  /** A stream record, of either mode. */
  datatype Record = TcpRecord(tcp: SO.TcpStream) | HttpRecord(http: HO.HttpState) {
    function Obj(): object { match this case TcpRecord(tcp) => tcp case HttpRecord(http) => http }
    function Id(): nat { match this case TcpRecord(tcp) => tcp.ident.id case HttpRecord(http) => http.id }
    function Ws(): nat { match this case TcpRecord(tcp) => tcp.ident.ws case HttpRecord(http) => http.ws }

    predicate Cleaned()
      reads Obj()
    {
      match this case TcpRecord(tcp) => tcp.cleaned case HttpRecord(http) => http.cleaned
    }

    ghost function Val(): (e: Entry)
      reads Obj()
      ensures e.Id() == Id() && e.Ws() == Ws() && e.Cleaned() == Cleaned() && e.Tcp? == TcpRecord?
    {
      match this case TcpRecord(tcp) => Tcp(tcp.Val()) case HttpRecord(http) => Web(http.Val())
    }
  }

  class RelayServer {
    const cfg: Config
    const clientManager: CMO.ClientManager

    /** StreamManager: every record ever created, the map of the registered ones, and _nextStreamId. */
    var all: seq<Record>
    var streams: map<nat, nat>
    var nextStreamId: Ids.Id

    /** TcpAgentServer._agentStreams, and the two _connCountByPort maps. */
    var agentStreams: map<nat, set<nat>>
    var agentCount: map<int, nat>
    var directCount: map<int, nat>

    ghost var sent: Sent

    /** The values of the records, and the objects they are. */
    ghost var entries: seq<Entry>
    ghost var objects: set<object>

    ghost function Val(): Relay
      reads this, clientManager
    {
      Relay(entries, streams, nextStreamId, Books(agentStreams, agentCount, directCount), clientManager.Val(), sent)
    }

    /** Every record is an object of its own, and the map finds records that are not cleaned up, under their ids. */
    ghost predicate Valid()
      reads this`all, this`streams, this`entries, this`objects, objects
    {
      && this !in objects && clientManager !in objects
      && |entries| == |all|
      && (forall h :: 0 <= h < |all| ==> all[h].Obj() in objects && entries[h] == all[h].Val())
      && (forall g, h :: 0 <= g < h < |all| ==> all[g].Obj() != all[h].Obj())
      && (forall id :: id in streams ==> streams[id] < |all| && !entries[streams[id]].Cleaned() && entries[streams[id]].Id() == id)
    }

    constructor (config: Config)
      ensures Valid() && Val() == Initial() && cfg == config
      ensures fresh(clientManager) && clientManager.maxTunnelClients == config.maxClients && objects == {}
    {
      var manager := new CMO.ClientManager(config.maxClients);
      cfg, clientManager := config, manager;
      all, streams, nextStreamId := [], map[], 1;
      agentStreams, agentCount, directCount := map[], map[], map[];
      sent, entries, objects := Sent(map[], map[]), [], {};
    }

    // -------------------------------------------------------------------------
    // StreamManager
    // -------------------------------------------------------------------------

    /** allocateStreamId: the first unused id, probing from _nextStreamId; None when every id is in use. */
    method AllocateStreamId() returns (id: Option<nat>)
      modifies this`nextStreamId
      ensures id == Ids.Allocate(streams.Keys, old(nextStreamId))
      ensures nextStreamId == if id.Some? then Ids.Next(id.value) else old(nextStreamId)
      ensures id.None? <==> forall n: nat :: Ids.IsId(n) ==> n in streams
    {
      hide Ids.Nth, Ids.FirstProbe;
      Ids.AllocateFailsIffFull(streams.Keys, nextStreamId);
      var i := 0;
      while i < Ids.MAX_ID
        invariant 0 <= i <= Ids.MAX_ID
        invariant nextStreamId == Ids.Nth(old(nextStreamId), i)
        invariant Ids.FirstProbe(streams.Keys, old(nextStreamId), 0) == Ids.FirstProbe(streams.Keys, old(nextStreamId), i)
      {
        var candidate := nextStreamId;
        Ids.ProbeStep(streams.Keys, old(nextStreamId), i);
        nextStreamId := if nextStreamId >= Ids.MAX_ID then 1 else nextStreamId + 1;
        if candidate !in streams {
          return Some(candidate);
        }
        i := i + 1;
      }
      return None;
    }

    /** The onCleanup closure of a TCP stream. */
    method OnCleanup(i: S.Identity)
      modifies this`agentStreams, this`agentCount, this`directCount
      ensures Books(agentStreams, agentCount, directCount) == Release(old(Books(agentStreams, agentCount, directCount)), i)
    {
      var port := i.serverPort;
      match i.peer
      case External =>
        var c := if port in directCount && directCount[port] != 0 then directCount[port] else 1;
        directCount := directCount[port := if c - 1 > 0 then c - 1 else 0];
      case Agent(a) =>
        var c := if port in agentCount && agentCount[port] != 0 then agentCount[port] else 1;
        agentCount := agentCount[port := if c - 1 > 0 then c - 1 else 0];
        if a in agentStreams {
          agentStreams := agentStreams[a := agentStreams[a] - {i.id}];
        }
    }

    /**
     * What a step of record h does to the managers, once the record itself has moved: its cleanup deletes it
     * from the map, and every call of its onCleanup, from the `from`-th on, settles the books; the
     * closure of TcpRouter lets the first call through only.
     */
    method SettleManagers(h: nat, wasCleaned: bool, from: nat)
      requires h < |all|
      modifies this`streams, this`agentStreams, this`agentCount, this`directCount
      ensures streams == if !wasCleaned && all[h].Cleaned() then old(streams) - {all[h].Id()} else old(streams)
      ensures Books(agentStreams, agentCount, directCount)
           == if all[h].TcpRecord? then Settled(old(Books(agentStreams, agentCount, directCount)), all[h].tcp.ident, from, all[h].tcp.cleanups)
              else old(Books(agentStreams, agentCount, directCount))
    {
      hide Release;
      if !wasCleaned && all[h].Cleaned() {
        streams := streams - {all[h].Id()};
      }
      match all[h]
      case HttpRecord(_) =>
      case TcpRecord(tcp) =>
        var calls := from;
        while calls < tcp.cleanups
          invariant streams == if !wasCleaned && all[h].Cleaned() then old(streams) - {all[h].Id()} else old(streams)
          invariant Settled(Books(agentStreams, agentCount, directCount), tcp.ident, calls, tcp.cleanups)
                 == Settled(old(Books(agentStreams, agentCount, directCount)), tcp.ident, from, tcp.cleanups)
        {
          if !(tcp.ident.peer.External? && calls > 0) {
            OnCleanup(tcp.ident);
          }
          calls := calls + 1;
        }
    }

    /** Once only record h and the managers have moved, the relay has moved as if by Settle. */
    twostate lemma Settles(h: nat)
      requires old(Valid()) && all == old(all) && objects == old(objects) && h < |all|
      requires forall g :: 0 <= g < |all| && g != h ==> all[g].Val() == old(all[g].Val())
      requires entries == old(entries)[h := all[h].Val()]
      requires clientManager.Val() == old(clientManager.Val()) && nextStreamId == old(nextStreamId) && sent == old(sent)
      requires streams == if !old(entries[h]).Cleaned() && all[h].Cleaned() then old(streams) - {all[h].Id()} else old(streams)
      requires Books(agentStreams, agentCount, directCount)
            == if all[h].TcpRecord? then Settled(old(Books(agentStreams, agentCount, directCount)), all[h].tcp.ident, old(entries[h]).t.cleanups, all[h].tcp.cleanups)
               else old(Books(agentStreams, agentCount, directCount))
      ensures Val() == Settle(old(Val()), h, all[h].Val()) && Valid()
    {
      hide Settled;
    }

    /** The surroundings of a TCP record. */
    method Surroundings(i: S.Identity, rd: Readings) returns (e: S.Env)
      ensures e == EnvOf(Val(), cfg, rd, i)
    {
      e := S.Env(i.ws in clientManager.openClients, i.peer.Agent? && i.peer.ws in clientManager.openAgents, rd.full, rd.low, rd.highs, cfg.destBuffer);
    }

    /** abortTcpStream, on record h. */
    method AbortTcp(h: nat, rd: Readings, notify: bool)
      requires Valid() && h < |all| && all[h].TcpRecord?
      modifies this`streams, this`agentStreams, this`agentCount, this`directCount, this`entries, all[h].Obj()
      ensures Valid()
      ensures var t := old(all[h].tcp.Val()); Val() == Settle(old(Val()), h, Tcp(S.Abort(t, EnvOf(old(Val()), cfg, rd, t.ident), notify)))
    {
      hide S.Abort, Settle, Settled, S.SameInputs;
      var tcp := all[h].tcp;
      var e := Surroundings(tcp.ident, rd);
      var cleaned, calls := tcp.cleaned, tcp.cleanups;
      tcp.AbortTcpStream(e, notify);
      entries := entries[h := all[h].Val()];
      SettleManagers(h, cleaned, calls);
      Settles(h);
    }

    /** abortStream, on record h. */
    method AbortHttp(h: nat, rd: Readings, notify: bool)
      requires Valid() && h < |all| && all[h].HttpRecord?
      modifies this`streams, this`agentStreams, this`agentCount, this`directCount, this`entries, all[h].Obj()
      ensures Valid()
      ensures var w := old(all[h].http.Val()); Val() == Settle(old(Val()), h, Web(H.Abort(w, WebEnvOf(old(Val()), rd, w.ws), notify)))
    {
      hide H.Abort, Settle, Settled, H.Inv, H.Settles;
      var http := all[h].http;
      var cleaned := http.cleaned;
      http.AbortStream(rd.web.(wsOpen := http.ws in clientManager.openClients), notify);
      entries := entries[h := all[h].Val()];
      SettleManagers(h, cleaned, 0);
      Settles(h);
    }

    /** abortAnyStream */
    method AbortAnyStream(h: nat, rd: Readings, notify: bool)
      requires Valid() && h < |all|
      modifies this`streams, this`agentStreams, this`agentCount, this`directCount, this`entries, all[h].Obj()
      ensures Valid() && Val() == Settle(old(Val()), h, Aborted(old(Val()), cfg, rd, old(entries[h]), notify))
    {
      hide S.Abort, H.Abort, Settle;
      if all[h].TcpRecord? {
        AbortTcp(h, rd, notify);
      } else {
        AbortHttp(h, rd, notify);
      }
    }

    /** The frame switch of handleClientFrame, on a TCP record. */
    method HandleTcpFrame(h: nat, f: Frame, rd: Readings)
      requires Valid() && h < |all| && all[h].TcpRecord? && !all[h].Cleaned()
      modifies this`streams, this`agentStreams, this`agentCount, this`directCount, this`entries, all[h].Obj()
      ensures Valid()
      ensures var t := old(all[h].tcp.Val()); Val() == Settle(old(Val()), h, Tcp(S.FromClient(t, EnvOf(old(Val()), cfg, rd, t.ident), f)))
    {
      hide S.FromClient, Settle, Settled;
      var tcp := all[h].tcp;
      var e := Surroundings(tcp.ident, rd);
      var calls := tcp.cleanups;
      tcp.HandleClientFrame(e, f);
      entries := entries[h := all[h].Val()];
      SettleManagers(h, false, calls);
      Settles(h);
    }

    /** The frame switch of handleClientFrame, on an HTTP record. */
    method HandleHttpFrame(h: nat, f: Frame, rd: Readings)
      requires Valid() && h < |all| && all[h].HttpRecord? && !all[h].Cleaned()
      modifies this`streams, this`agentStreams, this`agentCount, this`directCount, this`entries, all[h].Obj()
      ensures Valid()
      ensures var w := old(all[h].http.Val()); Val() == Settle(old(Val()), h, Web(H.FromClient(w, WebEnvOf(old(Val()), rd, w.ws), f)))
    {
      hide H.FromClient, Settle, Settled, H.Inv, H.Advances, H.Passes;
      var http := all[h].http;
      http.HandleClientFrame(rd.web.(wsOpen := http.ws in clientManager.openClients), f);
      entries := entries[h := all[h].Val()];
      SettleManagers(h, false, 0);
      Settles(h);
    }

    /** A callback, socket event or timer of a TCP record. */
    method TcpLocal(h: nat, ev: S.Local, rd: Readings)
      requires Valid() && h < |all| && all[h].TcpRecord? && S.Possible(all[h].tcp.Val(), EnvOf(Val(), cfg, rd, all[h].tcp.ident), ev)
      modifies this`streams, this`agentStreams, this`agentCount, this`directCount, this`entries, all[h].Obj()
      ensures Valid()
      ensures var t := old(all[h].tcp.Val()); Val() == Settle(old(Val()), h, Tcp(S.OnLocal(t, EnvOf(old(Val()), cfg, rd, t.ident), ev)))
    {
      hide S.OnLocal, S.Possible, Settle, Settled;
      var tcp := all[h].tcp;
      var e := Surroundings(tcp.ident, rd);
      var cleaned, calls := tcp.cleaned, tcp.cleanups;
      tcp.HandleLocal(e, ev);
      entries := entries[h := all[h].Val()];
      SettleManagers(h, cleaned, calls);
      Settles(h);
    }

    /** An event of the response, the request or the request writer of an HTTP record. */
    method HttpLocal(h: nat, ev: H.Local, rd: Readings)
      requires Valid() && h < |all| && all[h].HttpRecord?
      modifies this`streams, this`agentStreams, this`agentCount, this`directCount, this`entries, all[h].Obj()
      ensures Valid()
      ensures var w := old(all[h].http.Val()); Val() == Settle(old(Val()), h, Web(H.OnLocal(w, WebEnvOf(old(Val()), rd, w.ws), ev)))
    {
      hide H.OnLocal, H.Possible, H.Inv, H.Advances, H.OnlyEnds, Settle, Settled;
      var http := all[h].http;
      var cleaned := http.cleaned;
      http.HandleLocal(rd.web.(wsOpen := http.ws in clientManager.openClients), ev);
      entries := entries[h := all[h].Val()];
      SettleManagers(h, cleaned, 0);
      Settles(h);
    }

    /** An event of the record with this handle, however late it comes. */
    method HandleEvent(ev: Event, rd: Readings)
      requires Valid() && (ev.StreamEvent? || ev.WebEvent?) && Enabled(Val(), cfg, rd, ev)
      modifies this`streams, this`agentStreams, this`agentCount, this`directCount, this`entries, objects
      ensures Valid() && Val() == Step(old(Val()), cfg, rd, ev)
      ensures old(RI.Inv(Val(), cfg)) ==> RI.Inv(Val(), cfg)
    {
      hide S.OnLocal, S.Possible, H.OnLocal, H.Possible, Settle, RI.InvBut;
      if RI.Inv(Val(), cfg) { RI.StepInv(Val(), cfg, rd, ev); }
      if ev.StreamEvent? {
        TcpLocal(ev.h, ev.ev, rd);
      } else {
        HttpLocal(ev.h, ev.w, rd);
      }
    }

    /** The record a client's frame finds: by id, if the WebSocket is its own. */
    method FindOwn(ws: nat, streamId: nat) returns (h: Option<nat>)
      requires Valid()
      ensures h == Own(Val(), ws, streamId)
      ensures h.Some? ==> h.value < |all| && !all[h.value].Cleaned() && Val().all[h.value] == all[h.value].Val()
    {
      if streamId !in streams || all[streams[streamId]].Ws() != ws {
        return None;
      }
      return Some(streams[streamId]);
    }

    static function Own(r: Relay, ws: nat, id: nat): (h: Option<nat>)
      ensures h.Some? ==> h.value < |r.all|
    {
      if RM.Addressed(r, ws, id) then Some(r.streams[id]) else None
    }

    static lemma FromClientCases(r: Relay, cfg: Config, rd: Readings, ws: nat, id: nat, f: Frame)
      ensures FromClient(r, cfg, rd, ws, id, f)
           == match Own(r, ws, id)
              case None => r
              case Some(h) =>
                (match r.all[h]
                 case Tcp(t) => Settle(r, h, Tcp(S.FromClient(t, EnvOf(r, cfg, rd, t.ident), f)))
                 case Web(w) => Settle(r, h, Web(H.FromClient(w, WebEnvOf(r, rd, w.ws), f))))
    {
      hide Settle, S.FromClient, H.FromClient;
    }

    /** The lookup of handleClientFrame, and the switch. */
    method DispatchClientFrame(ws: nat, streamId: nat, f: Frame, rd: Readings)
      requires Valid()
      modifies this`streams, this`agentStreams, this`agentCount, this`directCount, this`entries, objects
      ensures Valid() && Val() == FromClient(old(Val()), cfg, rd, ws, streamId, f)
    {
      hide FromClient, S.FromClient, H.FromClient, Settle, Own;
      FromClientCases(Val(), cfg, rd, ws, streamId, f);
      var found := FindOwn(ws, streamId);
      if found.None? {
        return;
      }
      if all[found.value].TcpRecord? {
        HandleTcpFrame(found.value, f, rd);
      } else {
        HandleHttpFrame(found.value, f, rd);
      }
    }

    /**
     * handleClientFrame: a frame goes to the record under its id if the WebSocket is that record's own, and is
     * dropped otherwise. Whatever it is, it moves no other record, leaves the managers alone unless it ends the
     * stream, and keeps the relay's invariant.
     */
    method HandleClientFrame(ws: nat, streamId: nat, f: Frame, rd: Readings)
      requires Valid()
      modifies this`streams, this`agentStreams, this`agentCount, this`directCount, this`entries, objects
      ensures Valid() && Val() == FromClient(old(Val()), cfg, rd, ws, streamId, f)
      ensures !old(RM.Addressed(Val(), ws, streamId)) ==> Val() == old(Val())
      ensures old(RI.Inv(Val(), cfg)) ==> RI.Inv(Val(), cfg) && RM.TouchesOne(old(Val()), Val(), streamId)
    {
      hide S.FromClient, H.FromClient, Settle, RI.InvBut, RM.TouchesOne, Valid;
      ghost var r := Val();
      if RI.Inv(r, cfg) {
        RI.FromClientInv(r, cfg, rd, ws, streamId, f);
        RM.ClientFrameTouches(r, cfg, rd, ws, streamId, f);
      }
      DispatchClientFrame(ws, streamId, f, rd);
    }

    /** One turn of a teardown loop. */
    method AbortIfSelected(h: nat, who: Victims, rd: Readings)
      requires Valid() && h < |all|
      modifies this`streams, this`agentStreams, this`agentCount, this`directCount, this`entries, all[h].Obj()
      ensures Valid() && Val().reg == old(Val()).reg
      ensures Val() == if Selected(old(Val()), who, h) then Settle(old(Val()), h, Aborted(old(Val()), cfg, rd, old(Val()).all[h], who.OfIds?)) else old(Val())
    {
      hide Settle, Aborted;
      var record := all[h];
      if record.Id() in streams && streams[record.Id()] == h && (match who case OfClient(ws) => record.Ws() == ws case OfIds(ids) => record.TcpRecord? && record.Id() in ids) {
        AbortAnyStream(h, rd, who.OfIds?);
      }
    }

    /** The streams of a set of victims are aborted one after the other, as both teardown loops do. */
    method AbortSelected(who: Victims, rd: Readings)
      requires Valid()
      modifies this`streams, this`agentStreams, this`agentCount, this`directCount, this`entries, objects
      ensures Valid() && Val() == AbortAll(old(Val()), cfg, rd, who, 0)
    {
      hide Settle, Aborted, Selected, AbortAll;
      ghost var r := Val();
      for h := 0 to |all|
        invariant Valid() && Val().reg == r.reg
        invariant AbortAll(Val(), cfg, rd, who, h) == AbortAll(r, cfg, rd, who, 0)
      {
        AbortAllTurn(Val(), cfg, rd, who, h);
        AbortIfSelected(h, who, rd);
      }
      AbortAllDone(Val(), cfg, rd, who, |all|);
    }

    static lemma AbortAllTurn(r: Relay, cfg: Config, rd: Readings, who: Victims, h: nat)
      requires h < |r.all|
      ensures AbortAll(r, cfg, rd, who, h)
           == AbortAll(if Selected(r, who, h) then Settle(r, h, Aborted(r, cfg, rd, r.all[h], who.OfIds?)) else r, cfg, rd, who, h + 1)
    {
      hide Settle, Aborted, Selected;
    }

    static lemma AbortAllDone(r: Relay, cfg: Config, rd: Readings, who: Victims, h: nat)
      requires h >= |r.all|
      ensures AbortAll(r, cfg, rd, who, h) == r
    {
    }

    // -------------------------------------------------------------------------
    // ClientManager and TcpAgentServer: joining and teardown
    // -------------------------------------------------------------------------

    /** TcpAgentServer.handleConnection, on a new WebSocket. */
    method AddAgent(a: nat)
      requires Valid()
      modifies this`agentStreams, clientManager
      ensures Valid()
      ensures Val() == old(Val()).(books := old(Val()).books.(agentStreams := old(agentStreams)[a := {}]),
                                   reg := old(Val()).reg.(openAgents := old(clientManager.openAgents) + {a}))
    {
      agentStreams := agentStreams[a := {}];
      clientManager.openAgents := clientManager.openAgents + {a};
    }

    /** ClientManager.cleanupClient, on a `close` or `error` event: afterwards no stream of this client is left. */
    method CleanupClient(ws: nat, rd: Readings)
      requires Valid()
      modifies this`streams, this`agentStreams, this`agentCount, this`directCount, this`entries, objects, clientManager
      ensures Valid() && Val() == AbortAll(old(Val()).(reg := CM.ForgetClient(old(Val()).reg, ws)), cfg, rd, OfClient(ws), 0)
    {
      hide CM.ForgetClient;
      clientManager.Forget(ws);
      AbortSelected(OfClient(ws), rd);
    }

    /** TcpAgentServer.cleanupAgent */
    method CleanupAgent(a: nat, rd: Readings)
      requires Valid()
      modifies this`streams, this`agentStreams, this`agentCount, this`directCount, this`entries, objects
      ensures Valid()
      ensures Val() == if a !in old(agentStreams) then old(Val())
                       else AbortAll(old(Val()).(books := old(Val()).books.(agentStreams := old(agentStreams) - {a})), cfg, rd, OfIds(old(agentStreams)[a]), 0)
    {
      if a !in agentStreams {
        return;
      }
      var owned := agentStreams[a];
      agentStreams := agentStreams - {a};
      AbortSelected(OfIds(owned), rd);
    }

    // -------------------------------------------------------------------------
    // Opening streams
    // -------------------------------------------------------------------------

    /** sendJsonFrame(TCP_ABORT, 0, ...) to an agent. */
    method SendReject(a: nat, reply: ConnectReply)
      requires Valid()
      modifies this`sent
      ensures Valid() && Val() == Reject(old(Val()), a, reply)
    {
      if a in clientManager.openAgents {
        sent := sent.(rejections := sent.rejections[a := (if a in sent.rejections then sent.rejections[a] else []) + [reply]]);
      }
    }

    /** A new record is registered under its id. */
    method Insert(record: Record)
      requires Valid() && !record.Cleaned() && record.Obj() !in objects && record.Obj() != this && record.Obj() != clientManager
      modifies this`all, this`streams, this`entries, this`objects
      ensures Valid() && objects == old(objects) + {record.Obj()}
      ensures Val() == old(Val()).(all := old(Val()).all + [record.Val()], streams := old(Val()).streams[record.Id() := |old(Val()).all|])
    {
      streams := streams[record.Id() := |all|];
      all := all + [record];
      entries := entries + [record.Val()];
      objects := objects + {record.Obj()};
    }

    /** Counted on its port and, for an agent's stream, in the agent's set. */
    method Count(i: S.Identity)
      requires Valid()
      modifies this`agentStreams, this`agentCount, this`directCount
      ensures Valid() && Val() == old(Val()).(books := Charge(old(Val()).books, i))
    {
      var port := i.serverPort;
      match i.peer
      case External =>
        var currentCount := if port in directCount then directCount[port] else 0;
        directCount := directCount[port := currentCount + 1];
      case Agent(a) =>
        var currentCount := if port in agentCount then agentCount[port] else 0;
        agentCount := agentCount[port := currentCount + 1];
        if a in agentStreams {
          agentStreams := agentStreams[a := agentStreams[a] + {i.id}];
        }
    }

    /** createTcpStream and the TCP_OPEN that follows it. */
    method NewStream(id: nat, ws: nat, peer: S.Peer, port: int, requestId: nat, target: string,
        rd: Readings) returns (tcp: SO.TcpStream)
      ensures fresh(tcp) && !tcp.cleaned && tcp.ident == S.Identity(id, ws, peer, port, requestId, target)
      ensures Tcp(tcp.Val()) == OpenTcp(Val(), cfg, rd, id, ws, peer, port, requestId, target)
    {
      hide S.ClientTalk, DataOf;
      tcp := new SO.TcpStream(id, ws, peer, port, requestId, target);
      var e := Surroundings(tcp.ident, rd);
      tcp.Send(e, TcpOpen(true, cfg.host, port));
    }

    /** A stream is opened: an id is allocated, unless all are in use, and the record registered and counted. */
    method OpenStream(ws: nat, peer: S.Peer, port: int, requestId: nat, target: string, rd: Readings) returns (id: Option<nat>)
      requires Valid()
      modifies this`all, this`streams, this`nextStreamId, this`agentStreams, this`agentCount, this`directCount, this`entries, this`objects
      ensures Valid() && fresh(objects - old(objects))
      ensures id == Ids.Allocate(old(Val()).streams.Keys, old(Val()).nextId)
      ensures Val() == if id.None? then old(Val()) else Register(old(Val()), id.value, OpenTcp(old(Val()), cfg, rd, id.value, ws, peer, port, requestId, target))
    {
      hide OpenTcp, Charge, Ids.Allocate;
      id := AllocateStreamId();
      if id.None? {
        return;
      }
      SameOpening(old(Val()), Val(), rd, id.value, ws, peer, port, requestId, target);
      var tcp := NewStream(id.value, ws, peer, port, requestId, target, rd);
      Count(tcp.ident);
      Insert(TcpRecord(tcp));
    }

    /** A record depends on the relay's registry only. */
    lemma SameOpening(r: Relay, r1: Relay, rd: Readings, id: nat, ws: nat, peer: S.Peer, port: int, requestId: nat,
        target: string)
      requires r1.reg == r.reg
      ensures OpenTcp(r1, cfg, rd, id, ws, peer, port, requestId, target) == OpenTcp(r, cfg, rd, id, ws, peer, port, requestId, target)
    {
      hide S.ToClient;
    }

    /** TcpAgentServer._handleTcpConnect with TcpRouter.createAgentStream, for a registered agent. */
    method HandleTcpConnect(a: nat, q: ConnectRequest, rd: Readings)
      requires Valid() && a in agentStreams
      modifies this
      ensures Valid() && fresh(objects - old(objects))
      ensures Val() == Connect(old(Val()), cfg, rd, a, q)
      ensures old(RI.Inv(Val(), cfg)) ==>
                if RD.Servable(old(Val()), cfg, a, q) then RD.Serves(old(Val()), Val(), cfg, a, q) else RD.Rejects(old(Val()), Val(), a, q)
    {
      hide CM.Resolve, OpenTcp, TunnelId.Normalize, Ids.Allocate, Reject, Register, RejectBody, RI.Inv, RD.Servable, RD.Serves, RD.Rejects;
      if RI.Inv(Val(), cfg) { RD.ConnectServesIff(Val(), cfg, rd, a, q); }
      var target := TunnelId.Normalize(q.target);
      if target.None? {
        SendReject(a, ConnectReply(q.port, q.requestId, ""));
        return;
      }
      var body := RejectBody(q, target.value);
      if q.port.None? || q.port.value !in cfg.allowedPorts {
        SendReject(a, body);
        return;
      }
      var port := q.port.value;
      var currentCount := if port in agentCount then agentCount[port] else 0;
      if cfg.agentPortLimit > 0 && currentCount >= cfg.agentPortLimit {
        SendReject(a, body);
        return;
      }
      if cfg.agentStreamLimit > 0 && |agentStreams[a]| >= cfg.agentStreamLimit {
        SendReject(a, body);
        return;
      }
      var resolved := clientManager.ResolveTargetClient(target.value);
      if resolved.None? {
        SendReject(a, body);
        return;
      }
      if |streams| >= cfg.maxStreams {
        SendReject(a, body);
        return;
      }
      var id := OpenStream(resolved.value.0, S.Agent(a), port, q.requestId, resolved.value.1, rd);
      if id.None? {
        SendReject(a, body);
      }
    }

    /** TcpRouter._handleConnection */
    method HandleConnection(port: int, ipAllowed: bool, rd: Readings)
      requires Valid()
      modifies this
      ensures Valid() && fresh(objects - old(objects))
      ensures Val() == AcceptDirect(old(Val()), cfg, rd, port, ipAllowed)
      ensures old(RI.Inv(Val(), cfg)) ==>
                if RD.DirectServable(old(Val()), cfg, port, ipAllowed) then RD.DirectServes(old(Val()), Val(), cfg, rd, port) else Val() == old(Val())
    {
      hide OpenTcp, Ids.Allocate, CM.LeastLoaded, Register, RI.Inv, RD.DirectServable, RD.DirectServes;
      if RI.Inv(Val(), cfg) { RD.AcceptDirectIff(Val(), cfg, rd, port, ipAllowed); }
      if !ipAllowed {
        return;
      }
      var currentCount := if port in directCount then directCount[port] else 0;
      if cfg.directPortLimit > 0 && currentCount >= cfg.directPortLimit {
        return;
      }
      if |streams| >= cfg.maxStreams {
        return;
      }
      var ws := clientManager.GetActiveClient(rd.load);
      if ws.None? {
        return;
      }
      var _ := OpenStream(ws.value, S.External, port, 0, "", rd);
    }

    /** createStream: an id is allocated, unless all are in use, and the record registered. */
    method OpenRequest(ws: nat) returns (id: Option<nat>)
      requires Valid()
      modifies this`all, this`streams, this`nextStreamId, this`entries, this`objects
      ensures Valid() && fresh(objects - old(objects))
      ensures id == Ids.Allocate(old(Val()).streams.Keys, old(Val()).nextId)
      ensures Val() == if id.None? then old(Val()) else Register(old(Val()), id.value, Web(H.Created(id.value, ws)))
    {
      hide Ids.Allocate;
      id := AllocateStreamId();
      if id.None? {
        return;
      }
      var http := new HO.HttpState(id.value, ws);
      Insert(HttpRecord(http));
    }

    /** HttpRouter._proxyHttpRequest, as far as the stream. */
    method ProxyHttpRequest(rd: Readings)
      requires Valid()
      modifies this
      ensures Valid() && fresh(objects - old(objects))
      ensures Val() == AcceptWeb(old(Val()), cfg, rd)
      ensures old(RI.Inv(Val(), cfg)) ==> if RD.WebServable(old(Val()), cfg) then RD.WebServes(old(Val()), Val(), rd) else Val() == old(Val())
    {
      hide Ids.Allocate, CM.LeastLoaded, Register, RI.Inv, RD.WebServable, RD.WebServes;
      if RI.Inv(Val(), cfg) { RD.AcceptWebIff(Val(), cfg, rd); }
      if |streams| >= cfg.maxStreams {
        return;
      }
      var ws := clientManager.GetActiveClient(rd.load);
      if ws.None? {
        return;
      }
      var _ := OpenRequest(ws.value);
    }

    // -------------------------------------------------------------------------
    // TcpAgentServer
    // -------------------------------------------------------------------------

    /** sendJsonFrame(TCP_ABORT, streamId, ...) for a stream that is not there. */
    method SendStray(a: nat, streamId: nat)
      requires Valid()
      modifies this`sent
      ensures Valid() && Val() == Stray(old(Val()), a, streamId)
    {
      if a in clientManager.openAgents {
        sent := sent.(strays := sent.strays[a := (if a in sent.strays then sent.strays[a] else []) + [streamId]]);
      }
    }

    /** The frame switch of _handleFrame, on a TCP record of that agent. */
    method HandleStreamFrame(h: nat, f: Frame, rd: Readings)
      requires Valid() && h < |all| && all[h].TcpRecord? && !all[h].Cleaned()
      modifies this`streams, this`agentStreams, this`agentCount, this`directCount, this`entries, all[h].Obj()
      ensures Valid()
      ensures var t := old(all[h].tcp.Val()); Val() == Settle(old(Val()), h, Tcp(S.FromAgent(t, EnvOf(old(Val()), cfg, rd, t.ident), f)))
    {
      hide S.FromAgent, Settle, Settled;
      var tcp := all[h].tcp;
      var e := Surroundings(tcp.ident, rd);
      var calls := tcp.cleanups;
      tcp.HandleAgentFrame(e, f);
      entries := entries[h := all[h].Val()];
      SettleManagers(h, false, calls);
      Settles(h);
    }

    /** The record an agent's frame finds: the TCP stream under its id, if an agent is behind it. */
    method FindVirtual(streamId: nat) returns (h: Option<nat>)
      requires Valid()
      ensures h == Virtual(Val(), streamId)
      ensures h.Some? ==> h.value < |all| && all[h.value].TcpRecord? && !all[h.value].Cleaned() && Val().all[h.value].t.ident == all[h.value].tcp.ident
    {
      if streamId !in streams || !all[streams[streamId]].TcpRecord? || all[streams[streamId]].tcp.ident.peer.External? {
        return None;
      }
      return Some(streams[streamId]);
    }

    static function Virtual(r: Relay, id: nat): (h: Option<nat>)
      ensures h.Some? ==> h.value < |r.all| && r.all[h.value].Tcp? && r.all[h.value].t.ident.peer.Agent?
    {
      if id !in r.streams || r.streams[id] >= |r.all| || !r.all[r.streams[id]].Tcp? || r.all[r.streams[id]].t.ident.peer.External? then None
      else Some(r.streams[id])
    }

    static lemma FromAgentCases(r: Relay, cfg: Config, rd: Readings, a: nat, id: nat, f: Frame)
      requires !f.TcpConnect?
      ensures FromAgent(r, cfg, rd, a, id, f)
           == match Virtual(r, id)
              case None => (if f.TcpData? || f.TcpClose? then Stray(r, a, id) else r)
              case Some(h) =>
                var t := r.all[h].t;
                if t.ident.peer.ws != a then r else Settle(r, h, Tcp(S.FromAgent(t, EnvOf(r, cfg, rd, t.ident), f)))
    {
      hide Stray, Settle, S.FromAgent, Connect;
    }

    /** _handleFrame, for a frame other than TCP_CONNECT. */
    method DispatchAgentFrame(a: nat, streamId: nat, f: Frame, rd: Readings)
      requires Valid() && !f.TcpConnect?
      modifies this`streams, this`agentStreams, this`agentCount, this`directCount, this`sent, this`entries, objects
      ensures objects == old(objects)
      ensures Valid() && Val() == FromAgent(old(Val()), cfg, rd, a, streamId, f)
    {
      hide FromAgent, S.FromAgent, Settle, Stray, Virtual;
      FromAgentCases(Val(), cfg, rd, a, streamId, f);
      var found := FindVirtual(streamId);
      if found.None? {
        if f.TcpData? || f.TcpClose? {
          SendStray(a, streamId);
        }
        return;
      }
      var h := found.value;
      if all[h].tcp.ident.peer.ws != a {
        return;
      }
      HandleStreamFrame(h, f, rd);
    }

    /**
     * _handleFrame: a frame other than TCP_CONNECT goes to the stream under its id if that stream is the agent's
     * own, and otherwise is dropped or answered with a stray abort. Whatever it is, it moves no other record,
     * leaves the managers alone unless it ends the stream, and keeps the relay's invariant.
     */
    method HandleAgentFrame(a: nat, streamId: nat, f: Frame, rd: Readings)
      requires Valid() && (f.TcpConnect? ==> a in agentStreams)
      modifies this, objects
      ensures Valid() && fresh(objects - old(objects))
      ensures Val() == FromAgent(old(Val()), cfg, rd, a, streamId, f)
      ensures old(RI.Inv(Val(), cfg)) ==> RI.Inv(Val(), cfg) && (!f.TcpConnect? ==> RM.TouchesOne(old(Val()), Val(), streamId))
      ensures old(RI.Inv(Val(), cfg)) && !f.TcpConnect? && !old(RM.AddressedByAgent(Val(), a, streamId)) ==>
                Val() == old(Val()) || Val() == Stray(old(Val()), a, streamId)
    {
      hide Connect, S.FromAgent, Settle, RI.InvBut, RM.TouchesOne, RM.AddressedByAgent, Stray, Valid;
      ghost var r := Val();
      if RI.Inv(r, cfg) {
        RI.FromAgentInv(r, cfg, rd, a, streamId, f);
        if !f.TcpConnect? { RM.AgentFrameTouches(r, cfg, rd, a, streamId, f); }
      }
      if !f.TcpConnect? {
        DispatchAgentFrame(a, streamId, f, rd);
      } else if streamId != 0 {
        SendStray(a, streamId);
      } else {
        HandleTcpConnect(a, f.request, rd);
      }
    }
  }
}
