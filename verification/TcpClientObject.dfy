/**
 * One TCP stream at the tunnel client as an object: the record and the listeners of its local socket. The two
 * entry points are tied to their steps in TcpClient, and promise what the local socket and the relay see of them.
 */
module TcpClientObject {
  import opened Frames
  import opened TcpClient
  import CA = TcpClientAnswers

  class TcpState {
    const id: nat

    var cleaned: bool
    var localWriteBackpressured: bool
    var peerPausedRead: bool
    var localPausedForWs: bool
    var pendingSends: nat

    /** The local socket. */
    var localConnected: bool
    var socketDestroyed: bool
    var socketPaused: bool

    ghost var sent: seq<Frame>
    ghost var took: Took

    ghost function Val(): Stream
      reads this
    {
      Stream(id, cleaned, Flow(localWriteBackpressured, peerPausedRead, localPausedForWs, pendingSends),
             Socket(localConnected, socketDestroyed, socketPaused), sent, took)
    }

    /** handleTcpOpen, once the request is admitted. */
    constructor (streamId: nat)
      ensures Val() == Opened(streamId)
    {
      id := streamId;
      cleaned, localWriteBackpressured, peerPausedRead, localPausedForWs, pendingSends := false, false, false, false, 0;
      localConnected, socketDestroyed, socketPaused := false, false, false;
      sent, took := [], Took([], [], false, false);
    }

    method SendFrame(e: Env, f: Frame)
      modifies this`sent
      ensures Val() == Send(old(Val()), e, f)
    {
      if e.wsOpen {
        sent := sent + [f];
      }
    }

    method CleanupTcpState()
      modifies this`cleaned, this`socketDestroyed
      ensures Val() == Cleanup(old(Val()))
    {
      if cleaned {
        return;
      }
      cleaned := true;
      socketDestroyed := true;
    }

    /** syncSocketReadState */
    method SyncSocketReadState()
      modifies this`socketPaused
      ensures Val() == SyncReadState(old(Val()))
    {
      if socketDestroyed {
        return;
      }
      if peerPausedRead || localPausedForWs {
        socketPaused := true;
      } else {
        socketPaused := false;
      }
    }

    method HandleTcpData(e: Env, chunk: Chunk)
      modifies this
      ensures Val() == FromServer(old(Val()), e, TcpData(chunk))
    {
      hide Word, DataOf;
      if socketDestroyed {
        return;
      }
      took := took.(written := took.written + [chunk]);
      if e.full && !localWriteBackpressured {
        localWriteBackpressured := true;
        SendFrame(e, Pause);
      }
    }

    /** handleServerFrame, for a record still in the map. */
    method HandleServerFrame(e: Env, f: Frame)
      modifies this
      ensures Val() == FromServer(old(Val()), e, f)
      ensures Serves(old(Val()), Val(), f)
      ensures old(Inv(Val(), e.wsOpen)) && !old(cleaned) ==> Inv(Val(), e.wsOpen) && CA.Answers(old(Val()), Val(), e, CA.FromRelay(f))
    {
      hide Word, DataOf, Inv, Serves, CA.Answers;
      FromServerServes(Val(), e, f);
      if Inv(Val(), e.wsOpen) && !cleaned {
        FromServerInv(Val(), e, f);
        CA.AnswersExactly(Val(), e, CA.FromRelay(f));
      }
      match f
      case TcpData(chunk) => HandleTcpData(e, chunk);
      case TcpClose =>
        took := took.(serverEnded := true);
        CleanupTcpState();
      case TcpAbort =>
        took := took.(serverEnded := true);
        CleanupTcpState();
      case Pause =>
        peerPausedRead := true;
        SyncSocketReadState();
      case Resume =>
        peerPausedRead := false;
        SyncSocketReadState();
      case ReqAbort =>
        cleaned := true;
        took := took.(crossed := true);
      case _ =>
    }

    /** The local socket's `data` listener. */
    method DataListener(e: Env, chunk: Chunk)
      requires Possible(Val(), e, LocalData(chunk))
      modifies this
      ensures Val() == OnLocal(old(Val()), e, LocalData(chunk))
    {
      hide Word, DataOf;
      if cleaned {
        return;
      }
      if !e.wsOpen {
        SendFrame(e, TcpAbort);
        CleanupTcpState();
        return;
      }
      pendingSends := pendingSends + 1;
      took := took.(read := took.read + [chunk]);
      SendFrame(e, TcpData(chunk));
      if e.high && !localPausedForWs {
        localPausedForWs := true;
        SyncSocketReadState();
      }
    }

    /** The local socket's `drain` listener. */
    method DrainListener(e: Env)
      requires Possible(Val(), e, LocalDrain)
      modifies this
      ensures Val() == OnLocal(old(Val()), e, LocalDrain)
    {
      hide Word, DataOf;
      if cleaned {
        return;
      }
      if localWriteBackpressured && e.wsOpen {
        localWriteBackpressured := false;
        SendFrame(e, Resume);
      }
    }

    /** The callback of a TCP_DATA send. */
    method SendCallback(e: Env)
      requires pendingSends > 0
      modifies this
      ensures Val() == OnLocal(old(Val()), e, SendDone)
    {
      hide Word, DataOf;
      pendingSends := pendingSends - 1;
      if !cleaned && localPausedForWs && pendingSends == 0 && e.low {
        localPausedForWs := false;
        SyncSocketReadState();
      }
    }

    /** The other listeners, send callbacks and timers, and the close of the WebSocket. */
    method HandleLocal(e: Env, ev: Local)
      requires Possible(Val(), e, ev)
      modifies this
      ensures Val() == OnLocal(old(Val()), e, ev)
      ensures Acts(old(Val()), Val(), ev)
      ensures old(Inv(Val(), e.wsOpen)) && !old(took.crossed) ==> Inv(Val(), e.wsOpen)
      ensures old(Inv(Val(), e.wsOpen)) && !old(cleaned) ==> CA.Answers(old(Val()), Val(), e, CA.Happens(ev))
    {
      hide Word, DataOf, Inv, Acts, CA.Answers;
      OnLocalActs(Val(), e, ev);
      if Inv(Val(), e.wsOpen) && !took.crossed { OnLocalInv(Val(), e, ev); }
      if Inv(Val(), e.wsOpen) && !cleaned { CA.AnswersExactly(Val(), e, CA.Happens(ev)); }
      match ev
      case Connected =>
        localConnected := true;
        SendFrame(e, TcpOpenAck);
      case Timeout =>
        if cleaned {
          return;
        }
        if !localConnected {
          SendFrame(e, TcpAbort);
          CleanupTcpState();
        }
      case LocalData(chunk) => DataListener(e, chunk);
      case LocalDrain => DrainListener(e);
      case LocalClose =>
        if cleaned {
          return;
        }
        SendFrame(e, TcpClose);
        CleanupTcpState();
      case LocalError =>
        if cleaned {
          return;
        }
        SendFrame(e, TcpAbort);
        CleanupTcpState();
      case SendDone => SendCallback(e);
      case Shutdown => CleanupTcpState();
    }
  }

  /**
   * createTcpClientHandler: the Map it shares with the HTTP half of the client, as the live TCP records and the
   * ids of the HTTP ones, and the frames and events that change it.
   */
  class TcpClientHandler {
    const maxConcurrentStreams: nat

    var streams: map<nat, Stream>
    var requests: set<nat>

    /** The records that have left the map, in the order they did. */
    ghost var gone: seq<Stream>

    /** The map holds only live records, each under its own id; an id has one record, of either kind. */
    ghost predicate Valid()
      reads this
    {
      && (forall id :: id in streams ==> streams[id].id == id && !streams[id].cleaned)
      && streams.Keys !! requests
    }

    /** streams.size */
    function Size(): nat
      reads this
    {
      |streams| + |requests|
    }

    constructor (max: nat)
      ensures Valid() && maxConcurrentStreams == max && streams == map[] && requests == {} && gone == []
    {
      maxConcurrentStreams, streams, requests, gone := max, map[], {}, [];
    }

    /** handleReqMeta, as far as the Map: an HTTP request enters it unless it is full or the id is taken. */
    method HandleReqMeta(id: nat) returns (admitted: bool)
      requires Valid()
      modifies this`requests
      ensures Valid()
      ensures admitted <==> old(Size()) < maxConcurrentStreams && id !in streams && id !in old(requests)
      ensures requests == old(requests) + if admitted then {id} else {}
    {
      if Size() >= maxConcurrentStreams {
        return false;
      }
      if id in streams || id in requests {
        return false;
      }
      requests := requests + {id};
      return true;
    }

    /** A record after one of its steps; cleanupTcpState deletes it from the map. */
    method Store(id: nat, s: Stream)
      requires Valid() && s.id == id && id !in requests
      modifies this`streams, this`gone
      ensures Valid()
      ensures streams == (if s.cleaned then old(streams) - {id} else old(streams)[id := s])
      ensures gone == (if s.cleaned then old(gone) + [s] else old(gone))
    {
      if s.cleaned {
        streams := streams - {id};
        gone := gone + [s];
      } else {
        streams := streams[id := s];
      }
    }

    /**
     * handleTcpOpen: refused requests leave the Map alone, the answer is in the record's log; an admitted one takes
     * the place of whatever record had its id.
     */
    method HandleTcpOpen(id: nat, e: Env, wellFormed: bool, hostAllowed: bool) returns (s: Stream)
      requires Valid()
      modifies this
      ensures Valid()
      ensures s == Open(id, e, wellFormed, hostAllowed && old(Size()) < maxConcurrentStreams)
      ensures wellFormed && hostAllowed && old(Size()) < maxConcurrentStreams <==> !s.cleaned
      ensures s.cleaned ==> streams == old(streams) && requests == old(requests) && s.sent == if e.wsOpen then [TcpAbort] else []
      ensures !s.cleaned ==> streams == old(streams)[id := s] && requests == old(requests) - {id} && s.sent == []
      ensures old(Size()) <= maxConcurrentStreams ==> Size() <= maxConcurrentStreams
    {
      hide DataOf, Word;
      if !wellFormed {
        s := Refused(id, e);
        return;
      }
      if !hostAllowed {
        s := Refused(id, e);
        return;
      }
      if Size() >= maxConcurrentStreams {
        s := Refused(id, e);
        return;
      }
      s := Opened(id);
      requests := requests - {id};
      Store(id, s);
    }

    /** handleServerFrame for any other frame. */
    method HandleServerFrame(id: nat, e: Env, f: Frame)
      requires Valid() && !f.TcpOpen?
      modifies this`streams, this`gone
      ensures Valid()
      ensures id !in old(streams) ==> streams == old(streams) && gone == old(gone)
      ensures id in old(streams) ==>
                var s := FromServer(old(streams)[id], e, f);
                streams == (if s.cleaned then old(streams) - {id} else old(streams)[id := s])
    {
      hide DataOf, Word;
      if id !in streams {
        return;
      }
      Store(id, FromServer(streams[id], e, f));
    }

    /** cleanupTcpStreams, when the WebSocket closes: every TCP record is cleaned up and leaves the Map. */
    method CleanupTcpStreams()
      requires Valid()
      modifies this`streams, this`gone
      ensures Valid() && streams == map[]
      ensures forall id :: id in old(streams) ==> Cleanup(old(streams)[id]) in gone
      ensures old(gone) <= gone && |gone| == |old(gone)| + |old(streams)|
    {
      while streams != map[]
        invariant Valid() && old(gone) <= gone && |gone| + |streams| == |old(gone)| + |old(streams)|
        invariant forall id :: id in streams ==> id in old(streams) && streams[id] == old(streams)[id]
        invariant forall id :: id in old(streams) && id !in streams ==> Cleanup(old(streams)[id]) in gone
        decreases |streams|
      {
        var id :| id in streams;
        ghost var before := streams;
        Store(id, Cleanup(streams[id]));
        assert before == streams[id := before[id]];
        assert gone[|gone| - 1] == Cleanup(before[id]);
      }
    }
  }
}
