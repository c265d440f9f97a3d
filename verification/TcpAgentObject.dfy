/** The local agent as objects: one bridged connection, and the list of connections waiting for their acknowledgement. */
module TcpAgentObject {
  import opened Frames
  import opened TcpAgent
  import AA = TcpAgentAnswers

  class StreamEntry {
    const streamId: nat

    var cleaned: bool
    var localWriteBackpressured: bool
    var peerPausedRead: bool
    var pausedForWs: bool
    var pendingSends: nat

    /** The local socket. */
    var socketDestroyed: bool
    var socketPaused: bool

    ghost var sent: seq<Frame>
    ghost var took: Took

    ghost function Val(): Stream
      reads this
    {
      Stream(streamId, cleaned, Flow(localWriteBackpressured, peerPausedRead, pausedForWs, pendingSends),
             Socket(socketDestroyed, socketPaused), sent, took)
    }

    /** registerStream */
    constructor (id: nat)
      ensures Val() == Registered(id)
    {
      streamId := id;
      cleaned, localWriteBackpressured, peerPausedRead, pausedForWs, pendingSends := false, false, false, false, 0;
      socketDestroyed, socketPaused := false, false;
      sent, took := [], Took([], [], false);
    }

    method SendFrame(e: Env, f: Frame)
      modifies this`sent
      ensures Val() == Send(old(Val()), e, f)
    {
      if e.wsOpen {
        sent := sent + [f];
      }
    }

    method SyncSocket(e: Env)
      modifies this`socketPaused
      ensures Val() == SyncReadState(old(Val()), e)
    {
      if cleaned || socketDestroyed {
        return;
      }
      if peerPausedRead || pausedForWs || !e.wsOpen {
        socketPaused := true;
      } else {
        socketPaused := false;
      }
    }

    /** The entry leaves the map and its socket ends. */
    method Finish()
      modifies this`cleaned, this`socketDestroyed
      ensures Val() == Drop(old(Val()))
    {
      cleaned := true;
      socketDestroyed := true;
    }

    /** handleServerFrame, for an entry still in streamedSockets. */
    method HandleServerFrame(e: Env, f: Frame)
      modifies this
      ensures Val() == FromServer(old(Val()), e, f)
      ensures Serves(old(Val()), Val(), f)
      ensures old(Inv(Val(), e.wsOpen)) && !old(cleaned) ==> Inv(Val(), e.wsOpen) && AA.Answers(old(Val()), Val(), e, AA.FromRelay(f))
    {
      hide Word, DataOf, Inv, Serves, AA.Answers;
      FromServerServes(Val(), e, f);
      if Inv(Val(), e.wsOpen) && !cleaned {
        FromServerInv(Val(), e, f);
        AA.AnswersExactly(Val(), e, AA.FromRelay(f));
      }
      match f
      case TcpData(chunk) =>
        took := took.(written := took.written + [chunk]);
        if e.full && !localWriteBackpressured {
          localWriteBackpressured := true;
          SendFrame(e, Pause);
        }
      case TcpClose =>
        took := took.(serverEnded := true);
        Finish();
      case TcpAbort =>
        took := took.(serverEnded := true);
        Finish();
      case Pause =>
        peerPausedRead := true;
        SyncSocket(e);
      case Resume =>
        peerPausedRead := false;
        SyncSocket(e);
      case _ =>
    }

    /** The local socket's `data` listener. */
    method DataListener(e: Env, chunk: Chunk)
      requires Possible(Val(), LocalData(chunk))
      modifies this
      ensures Val() == OnLocal(old(Val()), e, LocalData(chunk))
    {
      hide Word, DataOf;
      if cleaned || !e.wsOpen {
        return;
      }
      pendingSends := pendingSends + 1;
      took := took.(read := took.read + [chunk]);
      SendFrame(e, TcpData(chunk));
      if e.high && !pausedForWs {
        pausedForWs := true;
        SyncSocket(e);
      }
    }

    /** Its `drain` listener. */
    method DrainListener(e: Env)
      modifies this
      ensures Val() == OnLocal(old(Val()), e, LocalDrain)
    {
      hide Word, DataOf;
      if cleaned {
        return;
      }
      if localWriteBackpressured && e.wsOpen {
        localWriteBackpressured := false;
        SendFrame(e, Resume);
      }
    }

    /** Reading goes on once no send is outstanding and the WebSocket's buffer is low. */
    method MaybeUnthrottle(e: Env)
      modifies this
      ensures Val() == Unthrottle(old(Val()), e)
    {
      if !cleaned && pausedForWs && pendingSends == 0 && e.low {
        pausedForWs := false;
        SyncSocket(e);
      }
    }

    /** The listeners registerStream wires, send callbacks, the WebSocket's `drain`, and its close. */
    method HandleLocal(e: Env, ev: Local)
      requires Possible(Val(), ev)
      modifies this
      ensures Val() == OnLocal(old(Val()), e, ev)
      ensures Acts(old(Val()), Val(), ev)
      ensures old(Inv(Val(), e.wsOpen)) && (ev.Shutdown? ==> !e.wsOpen) ==> Inv(Val(), e.wsOpen)
      ensures old(Inv(Val(), e.wsOpen)) && !old(cleaned) && (ev.Shutdown? ==> !e.wsOpen) ==> AA.Answers(old(Val()), Val(), e, AA.Happens(ev))
    {
      hide Word, DataOf, Inv, Acts, AA.Answers;
      OnLocalActs(Val(), e, ev);
      if Inv(Val(), e.wsOpen) && !cleaned && (ev.Shutdown? ==> !e.wsOpen) { AA.AnswersExactly(Val(), e, AA.Happens(ev)); }
      if Inv(Val(), e.wsOpen) && (ev.Shutdown? ==> !e.wsOpen) { OnLocalInv(Val(), e, ev); }
      match ev
      case LocalData(chunk) => DataListener(e, chunk);
      case LocalDrain => DrainListener(e);
      case LocalClose =>
        if cleaned {
          return;
        }
        SendFrame(e, TcpClose);
        Finish();
      case LocalError =>
        if cleaned {
          return;
        }
        SendFrame(e, TcpAbort);
        Finish();
      case SendDone =>
        pendingSends := pendingSends - 1;
        MaybeUnthrottle(e);
      case WsDrain => MaybeUnthrottle(e);
      case Shutdown => Finish();
    }
  }

  class PendingList {
    var pendingConnects: seq<Pending>
    var nextConnectRequestId: nat

    constructor ()
      ensures pendingConnects == [] && nextConnectRequestId == 1
    {
      pendingConnects, nextConnectRequestId := [], 1;
    }

    method AllocateConnectRequestId() returns (id: nat)
      modifies this`nextConnectRequestId
      ensures id == old(nextConnectRequestId) && nextConnectRequestId == NextRequestId(id)
    {
      id := nextConnectRequestId;
      nextConnectRequestId := if nextConnectRequestId >= MAX_SAFE_INTEGER then 1 else nextConnectRequestId + 1;
    }

    /** A local connection on a listening port: the request that is sent for it. */
    method LocalConnection(sock: nat, port: int, target: string) returns (request: ConnectRequest)
      modifies this
      ensures request == ConnectRequest(Some(port), old(nextConnectRequestId), target)
      ensures pendingConnects == old(pendingConnects) + [Pending(sock, port, target, request.requestId)]
      ensures nextConnectRequestId == NextRequestId(old(nextConnectRequestId))
    {
      var requestId := AllocateConnectRequestId();
      pendingConnects := pendingConnects + [Pending(sock, port, target, requestId)];
      request := ConnectRequest(Some(port), requestId, target);
    }

    /** findIndex over the waiting connections, for a reply. */
    method FindIndex(reply: ConnectReply) returns (idx: Option<nat>)
      ensures idx == Find(pendingConnects, reply)
    {
      for i := 0 to |pendingConnects|
        invariant forall j :: 0 <= j < i ==> !Answers(pendingConnects[j], reply)
      {
        if Answers(pendingConnects[i], reply) {
          return Some(i);
        }
      }
      return None;
    }

    /** handleConnectAck and handleConnectReject, up to what they do with the socket they find. */
    method Settle(reply: ConnectReply) returns (found: Option<Pending>)
      modifies this`pendingConnects
      ensures var i := Find(old(pendingConnects), reply);
              if i.None? then found.None? && pendingConnects == old(pendingConnects)
              else found == Some(old(pendingConnects)[i.value]) && pendingConnects == Remove(old(pendingConnects), i.value)
    {
      var idx := FindIndex(reply);
      if idx.None? {
        return None;
      }
      found := Some(pendingConnects[idx.value]);
      pendingConnects := pendingConnects[..idx.value] + pendingConnects[idx.value + 1..];
    }

    /** removePending: a waiting socket failed or closed. */
    method RemovePending(sock: nat)
      modifies this`pendingConnects
      ensures pendingConnects == RemoveSock(old(pendingConnects), sock)
    {
      for i := 0 to |pendingConnects|
        invariant pendingConnects == old(pendingConnects)
        invariant forall j :: 0 <= j < i ==> pendingConnects[j].sock != sock
        invariant RemoveSock(pendingConnects, sock) == pendingConnects[..i] + RemoveSock(pendingConnects[i..], sock)
      {
        if pendingConnects[i].sock == sock {
          assert pendingConnects[i..][1..] == pendingConnects[i + 1..];
          pendingConnects := pendingConnects[..i] + pendingConnects[i + 1..];
          return;
        }
        assert pendingConnects[i..][1..] == pendingConnects[i + 1..];
        assert pendingConnects[..i] + ([pendingConnects[i]] + RemoveSock(pendingConnects[i + 1..], sock))
            == pendingConnects[..i + 1] + RemoveSock(pendingConnects[i + 1..], sock);
      }
      assert pendingConnects[..|pendingConnects|] + [] == pendingConnects;
    }
  }

  /** The agent's side of one WebSocket connection: waiting connections and the streamedSockets map. */
  class AgentConnection {
    const pending: PendingList

    var streamedSockets: map<nat, Stream>

    /** The entries cleanupAll took away. */
    ghost var dropped: seq<Stream>

    ghost predicate Valid()
      reads this
    {
      forall id :: id in streamedSockets ==> streamedSockets[id].streamId == id && !streamedSockets[id].cleaned
    }

    constructor ()
      ensures Valid() && fresh(pending) && pending.pendingConnects == [] && streamedSockets == map[]
    {
      pending := new PendingList();
      streamedSockets, dropped := map[], [];
    }

    /** handleServerFrame; `alive` says whether the local socket an acknowledgement finds is still there. */
    method HandleServerFrame(id: nat, e: Env, f: Frame, alive: bool)
      requires Valid()
      modifies this`streamedSockets, pending
      ensures Valid()
      ensures f.TcpConnectAck? && alive && Find(old(pending.pendingConnects), f.reply).Some?
              ==> streamedSockets == old(streamedSockets)[id := Registered(id)]
      ensures f.TcpConnectAck? && !(alive && Find(old(pending.pendingConnects), f.reply).Some?) ==> streamedSockets == old(streamedSockets)
      ensures f.ConnectRejected? ==> streamedSockets == old(streamedSockets)
      ensures f.TcpConnectAck? || f.ConnectRejected? ==>
                var i := Find(old(pending.pendingConnects), f.reply);
                pending.pendingConnects == if i.None? then old(pending.pendingConnects) else Remove(old(pending.pendingConnects), i.value)
      ensures !f.TcpConnectAck? && !f.ConnectRejected? ==> pending.pendingConnects == old(pending.pendingConnects)
      ensures !f.TcpConnectAck? && !f.ConnectRejected? && id !in old(streamedSockets) ==> streamedSockets == old(streamedSockets)
      ensures !f.TcpConnectAck? && !f.ConnectRejected? && id in old(streamedSockets) ==>
                var s := FromServer(old(streamedSockets)[id], e, f);
                streamedSockets == if s.cleaned then old(streamedSockets) - {id} else old(streamedSockets)[id := s]
    {
      hide Word, DataOf;
      if f.TcpConnectAck? {
        var found := pending.Settle(f.reply);
        if found.Some? && alive {
          streamedSockets := streamedSockets[id := Registered(id)];
        }
      } else if f.ConnectRejected? {
        var _ := pending.Settle(f.reply);
      } else if id in streamedSockets {
        Store(id, FromServer(streamedSockets[id], e, f));
      }
    }

    /** An entry after one of its steps; the finished ones are deleted. */
    method Store(id: nat, s: Stream)
      requires Valid() && s.streamId == id
      modifies this`streamedSockets
      ensures Valid()
      ensures streamedSockets == if s.cleaned then old(streamedSockets) - {id} else old(streamedSockets)[id := s]
    {
      if s.cleaned {
        streamedSockets := streamedSockets - {id};
      } else {
        streamedSockets := streamedSockets[id := s];
      }
    }

    /** cleanupAll, when the WebSocket closes: nothing waits any more, and every bridged socket is destroyed. */
    method CleanupAll()
      requires Valid()
      modifies this, pending
      ensures Valid() && streamedSockets == map[] && pending.pendingConnects == []
      ensures forall id :: id in old(streamedSockets) ==> Drop(old(streamedSockets)[id]) in dropped
      ensures old(dropped) <= dropped && |dropped| == |old(dropped)| + |old(streamedSockets)|
    {
      pending.pendingConnects := [];
      while streamedSockets != map[]
        invariant Valid() && pending.pendingConnects == []
        invariant old(dropped) <= dropped && |dropped| + |streamedSockets| == |old(dropped)| + |old(streamedSockets)|
        invariant forall id :: id in streamedSockets ==> id in old(streamedSockets) && streamedSockets[id] == old(streamedSockets)[id]
        invariant forall id :: id in old(streamedSockets) && id !in streamedSockets ==> Drop(old(streamedSockets)[id]) in dropped
        decreases |streamedSockets|
      {
        var id :| id in streamedSockets;
        ghost var before := streamedSockets;
        dropped := dropped + [Drop(streamedSockets[id])];
        streamedSockets := streamedSockets - {id};
        assert before == streamedSockets[id := before[id]];
        assert dropped[|dropped| - 1] == Drop(before[id]);
      }
    }
  }
}
